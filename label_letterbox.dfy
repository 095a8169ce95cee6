/**
 * The dataset tool that letterboxes training images and their labels
 * (tools/letterbox.py): a 640x480 image is scaled to fit 640x640 and padded
 * top and bottom, and every YOLO label line "cls x y w h [kx ky]*" (coordinates
 * normalised to the original image) is renormalised to the padded image.
 *
 * Python floats are modelled as reals. `float(token)` and `f"{v:.6f}"` are
 * parameters; image resizing, padding of pixels and file access are not modelled.
 */
module LabelLetterbox {

  const TargetW: nat := 640
  const TargetH: nat := 640
  const OrigW: nat := 640
  const OrigH: nat := 480

  datatype Option<T> = None | Some(value: T)

  // ---------------------------------------------------------------------------
  // str.split()
  // ---------------------------------------------------------------------------

  /** Python's str.isspace() for one character. */
  predicate IsSpace(c: char): (b: bool)
    // the ASCII separators are whitespace, and no visible ASCII character is
    ensures c == ' ' || c == '\t' || c == '\n' || c == '\r' ==> b
    ensures '!' <= c <= '~' ==> !b
  {
    var n := c as int;
    || n == 0x20 || (0x09 <= n <= 0x0D) || (0x1C <= n <= 0x1F) || n == 0x85 || n == 0xA0
    || n == 0x1680 || (0x2000 <= n <= 0x200A) || n == 0x2028 || n == 0x2029 || n == 0x202F
    || n == 0x205F || n == 0x3000
  }

  /** A field: a non-empty run of non-whitespace characters. */
  predicate IsWord(w: string)
  {
    |w| > 0 && forall i :: 0 <= i < |w| ==> !IsSpace(w[i])
  }

  /** Length of the run of non-whitespace characters at the start of s. */
  function WordLength(s: string): (n: nat)
    ensures n <= |s|
    ensures forall i :: 0 <= i < n ==> !IsSpace(s[i])
    ensures n < |s| ==> IsSpace(s[n])
  {
    if s == [] || IsSpace(s[0]) then 0 else 1 + WordLength(s[1..])
  }

  /** line.strip().split(): the maximal runs of non-whitespace characters, in order. */
  function Split(s: string): (fields: seq<string>)
    ensures forall i :: 0 <= i < |fields| ==> IsWord(fields[i])
    decreases |s|
  {
    if s == [] then []
    else if IsSpace(s[0]) then Split(s[1..])
    else
      var n := WordLength(s);
      [s[..n]] + Split(s[n..])
  }

  /** " ".join(fields). */
  function Join(fields: seq<string>): (line: string)
    // the line starts with the first field, and is at least as long as all of them
    ensures fields != [] ==> |fields[0]| <= |line| && line[..|fields[0]|] == fields[0]
    ensures |fields| > 1 ==> |fields[0]| < |line| && line[|fields[0]|] == ' '
  {
    if fields == [] then [] else if |fields| == 1 then fields[0] else fields[0] + " " + Join(fields[1..])
  }

  /** Splitting a line of single-space separated fields gives the fields back. */
  lemma {:induction false} SplitJoin(fields: seq<string>)
    requires forall i :: 0 <= i < |fields| ==> IsWord(fields[i])
    ensures Split(Join(fields)) == fields
  {
    if fields == [] {
    } else if |fields| == 1 {
      SplitWord(fields[0], []);
      assert fields[0] + [] == fields[0];
    } else {
      var w, tail := fields[0], fields[1..];
      var rest := Join(tail);
      assert forall i :: 0 <= i < |tail| ==> tail[i] == fields[i + 1];
      SplitJoin(tail);
      assert Join(fields) == w + (" " + rest);
      SplitWord(w, " " + rest);
      assert Split(" " + rest) == Split(rest) by {
        assert IsSpace(' ');
        assert (" " + rest)[1..] == rest;
      }
      assert fields == [w] + tail;
    }
  }

  /**
   * Whitespace only separates: splitting at a whitespace character splits the two
   * sides independently, so runs of whitespace act as one separator and leading or
   * trailing whitespace adds no field.
   */
  lemma {:induction false} SplitAtSpace(a: string, c: char, b: string)
    requires IsSpace(c)
    ensures Split(a + [c] + b) == Split(a) + Split(b)
    decreases |a|
  {
    var s := a + [c] + b;
    if a == [] {
      assert s[1..] == b;
    } else if IsSpace(a[0]) {
      assert s[1..] == a[1..] + [c] + b;
      SplitAtSpace(a[1..], c, b);
    } else {
      var m := WordLength(a);
      WordLengthExtend(a, [c] + b);
      assert s == a + ([c] + b);
      assert s[..m] == a[..m];
      assert s[m..] == a[m..] + [c] + b;
      SplitAtSpace(a[m..], c, b);
    }
  }

  /** Appending to s does not lengthen its first word once that word has ended. */
  lemma {:induction false} WordLengthExtend(a: string, rest: string)
    requires WordLength(a) < |a| || rest == [] || IsSpace(rest[0])
    ensures WordLength(a + rest) == WordLength(a)
  {
    if a == [] {
    } else if IsSpace(a[0]) {
      assert (a + rest)[0] == a[0];
    } else {
      assert (a + rest)[1..] == a[1..] + rest;
      WordLengthExtend(a[1..], rest);
    }
  }

  /** The newline that ends every line read by readlines() adds no field. */
  lemma SplitDropsNewline(line: string)
    ensures Split(line + "\n") == Split(line)
  {
    SplitAtSpace(line, '\n', []);
    assert line + ['\n'] + [] == line + "\n";
  }

  /** A word followed by nothing or by whitespace is split off as one field. */
  lemma {:induction false} SplitWord(w: string, rest: string)
    requires IsWord(w)
    requires rest == [] || IsSpace(rest[0])
    ensures Split(w + rest) == [w] + Split(rest)
  {
    WordLengthOfWord(w, rest);
    assert (w + rest)[..|w|] == w;
    assert (w + rest)[|w|..] == rest;
  }

  lemma {:induction false} WordLengthOfWord(w: string, rest: string)
    requires forall i :: 0 <= i < |w| ==> !IsSpace(w[i])
    requires rest == [] || IsSpace(rest[0])
    ensures WordLength(w + rest) == |w|
  {
    if w != [] {
      WordLengthOfWord(w[1..], rest);
      assert (w + rest)[1..] == w[1..] + rest;
    }
  }

  // ---------------------------------------------------------------------------
  // letterbox_image: scale and padding
  // ---------------------------------------------------------------------------

  datatype Letterbox = Letterbox(scale: real, newW: int, newH: int, padTop: int, padBottom: int)

  /**
   * The scale, resized size and vertical padding letterbox_image uses for a w x h
   * image. `int()` truncates, which is the floor here; `//` is floor division.
   */
  function LetterboxGeometry(w: int, h: int): (g: Letterbox)
    requires w > 0 && h > 0
    ensures g.scale > 0.0
    // scale = min(target_w / w, target_h / h)
    ensures g.scale <= TargetW as real / w as real && g.scale <= TargetH as real / h as real
    ensures g.scale == TargetW as real / w as real || g.scale == TargetH as real / h as real
    // new_w, new_h = int(w * scale), int(h * scale)
    ensures g.newW as real <= w as real * g.scale < g.newW as real + 1.0
    ensures g.newH as real <= h as real * g.scale < g.newH as real + 1.0
    ensures 0 <= g.newW <= TargetW && 0 <= g.newH <= TargetH
    ensures g.newW == TargetW || g.newH == TargetH
    ensures 0 <= g.padTop <= g.padBottom <= g.padTop + 1
    ensures g.newH + g.padTop + g.padBottom == TargetH
  {
    var scale := Min(TargetW as real / w as real, TargetH as real / h as real);
    ScaledFits(w, scale, TargetW);
    ScaledFits(h, scale, TargetH);
    var newW := (w as real * scale).Floor;
    var newH := (h as real * scale).Floor;
    var padH := TargetH - newH;
    var padTop := padH / 2;
    var padBottom := padH - padTop;
    Letterbox(scale, newW, newH, padTop, padBottom)
  }

  function Min(a: real, b: real): (m: real)
    ensures m <= a && m <= b && (m == a || m == b)
  {
    if a <= b then a else b
  }

  lemma ScaledFits(n: int, scale: real, target: nat)
    requires n > 0 && 0.0 < scale <= target as real / n as real
    ensures 0.0 < n as real * scale <= target as real
    ensures scale == target as real / n as real ==> n as real * scale == target as real
  {
  }

  /** A 640x480 image keeps its size and gets 80 rows of padding above and below. */
  lemma CameraFrameGeometry()
    ensures LetterboxGeometry(OrigW, OrigH) == Letterbox(1.0, 640, 480, 80, 80)
  {
  }

  // ---------------------------------------------------------------------------
  // adjust_label_line
  // ---------------------------------------------------------------------------

  /** The exceptions adjust_label_line can raise: float() on a bad token, or a keypoint without its y. */
  datatype PyError = ValueError | IndexError

  datatype LabelLine = LabelLine(cls: string, values: seq<real>)

  datatype Adjustment =
    | Invalid                   // None: fewer than 5 fields
    | Adjusted(line: LabelLine)
    | Raised(error: PyError)

  /** list(map(float, tokens)): None when some token does not parse. */
  function ParseAll(tokens: seq<string>, parse: string -> Option<real>): (r: Option<seq<real>>)
    ensures r.Some? <==> forall i :: 0 <= i < |tokens| ==> parse(tokens[i]).Some?
    ensures r.Some? ==> |r.value| == |tokens| && forall i :: 0 <= i < |tokens| ==> r.value[i] == parse(tokens[i]).value
  {
    if tokens == [] then Some([])
    else
      match (parse(tokens[0]), ParseAll(tokens[1..], parse))
      case (Some(v), Some(vs)) => Some([v] + vs)
      case _ => None
  }

  /**
   * Entry j of the renormalised list [x, y, w, h, kx0, ky0, ...]: the value is taken
   * back to pixels of the 640x480 image, scaled, shifted down by the top padding when
   * it is a y coordinate (not for h), and normalised by 640x640.
   */
  function AdjustValue(j: nat, v: real, scale: real, padTop: int): (r: real)
    // an image kept at its own size (scale 1, no padding) keeps its x values
    ensures scale == 1.0 && padTop == 0 && j % 2 == 0 ==> r == v
    // a non-negative coordinate stays non-negative
    ensures 0.0 <= v && 0.0 <= scale && 0 <= padTop ==> 0.0 <= r
  {
    if j == 3 then v * OrigH as real * scale / TargetH as real
    else if j % 2 == 0 then v * OrigW as real * scale / TargetW as real
    else (v * OrigH as real * scale + padTop as real) / TargetH as real
  }

  function AdjustValues(f: seq<real>, scale: real, padTop: int): (v: seq<real>)
    ensures |v| == |f|
  {
    seq(|f|, j requires 0 <= j < |f| => AdjustValue(j, f[j], scale, padTop))
  }

  /**
   * What adjust_label_line does with the fields of one line: fewer than five fields
   * is an invalid line; a field that float() rejects raises ValueError; an odd number
   * of keypoint values raises IndexError when the last x has no y.
   */
  function AdjustParts(parts: seq<string>, scale: real, padTop: int, parse: string -> Option<real>): (r: Adjustment)
    ensures r == Invalid <==> |parts| < 5
    ensures r == Raised(ValueError) <==>
              |parts| >= 5 && exists i :: 1 <= i < |parts| && parse(parts[i]).None?
    ensures r == Raised(IndexError) <==>
              |parts| >= 5 && (forall i :: 1 <= i < |parts| ==> parse(parts[i]).Some?) && |parts| % 2 == 0
    ensures r.Adjusted? ==>
              && r.line.cls == parts[0]
              && |r.line.values| == |parts| - 1
              && forall i :: 1 <= i < |parts| ==> r.line.values[i - 1] == AdjustValue(i - 1, parse(parts[i]).value, scale, padTop)
  {
    if |parts| < 5 then Invalid
    else
      var floats := ParseAll(parts[1..], parse);
      if floats.None? then
        assert exists i :: 1 <= i < |parts| && parse(parts[i]).None? by {
          var j :| 0 <= j < |parts[1..]| && parse(parts[1..][j]).None?;
          assert parse(parts[j + 1]).None?;
        }
        Raised(ValueError)
      else
        var f := floats.value;
        assert forall i :: 1 <= i < |parts| ==> parse(parts[i]) == parse(parts[1..][i - 1]);
        if (|f| - 4) % 2 == 1 then Raised(IndexError)
        else Adjusted(LabelLine(parts[0], AdjustValues(f, scale, padTop)))
  }

  /**
   * The renormalised values: x, w and every keypoint x only scale with the image (its
   * width is 640 before and after), y and every keypoint y are also shifted down by the
   * top padding, and h scales by the ratio of the heights.
   */
  lemma AdjustedValues(f: seq<real>, scale: real, padTop: int)
    requires |f| >= 4
    ensures var v := AdjustValues(f, scale, padTop);
            && v[0] == f[0] * scale
            && v[1] == (f[1] * OrigH as real * scale + padTop as real) / TargetH as real
            && v[2] == f[2] * scale
            && v[3] == f[3] * scale * (OrigH as real / TargetH as real)
            && (forall j :: 4 <= j < |f| && j % 2 == 0 ==> v[j] == f[j] * scale)
            && (forall j :: 4 <= j < |f| && j % 2 == 1 ==> v[j] == (f[j] * OrigH as real * scale + padTop as real) / TargetH as real)
  {
  }

  /** Inverse of AdjustValue: from the padded frame back to the 640x480 image. */
  function UnadjustValue(j: nat, v: real, scale: real, padTop: int): (u: real)
    requires scale > 0.0
  {
    if j == 3 then v * TargetH as real / (OrigH as real * scale)
    else if j % 2 == 0 then v * TargetW as real / (OrigW as real * scale)
    else (v * TargetH as real - padTop as real) / (OrigH as real * scale)
  }

  /** Renormalising a label is undone by UnadjustValue, whatever the scale and padding. */
  lemma AdjustRoundTrip(j: nat, v: real, scale: real, padTop: int)
    requires scale > 0.0
    ensures UnadjustValue(j, AdjustValue(j, v, scale, padTop), scale, padTop) == v
  {
  }

  /**
   * For a camera frame (scale 1, 80 rows of padding) a normalised label stays
   * normalised, and every y lands in the unpadded band [80/640, 560/640].
   */
  lemma CameraLabelsInBand(f: seq<real>)
    requires forall j :: 0 <= j < |f| ==> 0.0 <= f[j] <= 1.0
    ensures var v := AdjustValues(f, 1.0, 80);
            && (forall j :: 0 <= j < |f| ==> 0.0 <= v[j] <= 1.0)
            && (forall j :: 0 <= j < |f| && j != 3 && j % 2 == 1 ==> 0.125 <= v[j] <= 0.875)
  {
  }

  /** The output line re-splits into as many fields as the input line had. */
  lemma OutputFieldCount(line: string, scale: real, padTop: int, parse: string -> Option<real>, format: real -> string)
    requires AdjustParts(Split(line), scale, padTop, parse).Adjusted?
    requires forall v :: IsWord(format(v))
    ensures |Split(Render(AdjustParts(Split(line), scale, padTop, parse).line, format))| == |Split(line)|
  {
    var l := AdjustParts(Split(line), scale, padTop, parse).line;
    var fields := [l.cls] + seq(|l.values|, i requires 0 <= i < |l.values| => format(l.values[i]));
    assert Render(l, format) == Join(fields);
    assert IsWord(fields[0]);
    SplitJoin(fields);
  }

  /** cls + " " + " ".join(f"{v:.6f}" for v in values), with the number format a parameter. */
  function Render(l: LabelLine, format: real -> string): (line: string)
    // the class field comes first, verbatim, followed by a space when there are values
    ensures |l.cls| <= |line| && line[..|l.cls|] == l.cls
    ensures |l.values| > 0 ==> |l.cls| < |line| && line[|l.cls|] == ' '
  {
    Join([l.cls] + seq(|l.values|, i requires 0 <= i < |l.values| => format(l.values[i])))
  }

  /**
   * adjust_label_line: splits the line, parses the numbers, renormalises x, y, w, h
   * step by step and then the keypoints pair by pair.
   */
  method AdjustLabelLine(line: string, scale: real, padTop: int, parse: string -> Option<real>) returns (r: Adjustment)
    ensures r == AdjustParts(Split(line), scale, padTop, parse)
  {
    var parts := Split(line);
    if |parts| < 5 {
      return Invalid;
    }
    var cls := parts[0];
    var parsed := ParseAll(parts[1..], parse);
    if parsed.None? {
      return Raised(ValueError);
    }
    var floats := parsed.value;
    AdjustPartsParsed(parts, floats, scale, padTop, parse);
    var x, y, w, h := AdjustBoxFields(floats[0], floats[1], floats[2], floats[3], scale, padTop);
    var kps: seq<real> := [];
    if |floats| > 4 {
      var newKps := AdjustKeypointList(floats[4..], scale, padTop);
      if newKps.None? {
        return Raised(IndexError);
      }
      kps := newKps.value;
    }
    AssembleValues(floats, [x, y, w, h], kps, scale, padTop);
    return Adjusted(LabelLine(cls, [x, y, w, h] + kps));
  }

  /** Once the fields are parsed, adjust_label_line either raises IndexError or renormalises all values. */
  lemma AdjustPartsParsed(parts: seq<string>, f: seq<real>, scale: real, padTop: int, parse: string -> Option<real>)
    requires |parts| >= 5 && ParseAll(parts[1..], parse) == Some(f)
    ensures (|f| - 4) % 2 == 1 ==> AdjustParts(parts, scale, padTop, parse) == Raised(IndexError)
    ensures (|f| - 4) % 2 == 0 ==> AdjustParts(parts, scale, padTop, parse) == Adjusted(LabelLine(parts[0], AdjustValues(f, scale, padTop)))
  {
  }

  /** The renormalised box followed by the renormalised keypoints is the renormalised value list. */
  lemma AssembleValues(f: seq<real>, box: seq<real>, kps: seq<real>, scale: real, padTop: int)
    requires |f| >= 4 && |box| == 4 && |kps| == |f| - 4
    requires forall j :: 0 <= j < 4 ==> box[j] == AdjustValue(j, f[j], scale, padTop)
    requires forall j :: 0 <= j < |kps| ==> kps[j] == AdjustValue(j + 4, f[4..][j], scale, padTop)
    ensures box + kps == AdjustValues(f, scale, padTop)
  {
    assert forall j :: 4 <= j < |f| ==> (box + kps)[j] == kps[j - 4] && f[4..][j - 4] == f[j];
  }

  /** The x, y, w, h updates of adjust_label_line, one assignment at a time. */
  method AdjustBoxFields(x0: real, y0: real, w0: real, h0: real, scale: real, padTop: int)
    returns (x: real, y: real, w: real, h: real)
    ensures x == AdjustValue(0, x0, scale, padTop) && y == AdjustValue(1, y0, scale, padTop)
    ensures w == AdjustValue(2, w0, scale, padTop) && h == AdjustValue(3, h0, scale, padTop)
  {
    x, y, w, h := x0, y0, w0, h0;
    // denormalise to the original 640x480 image
    x := x * OrigW as real;
    y := y * OrigH as real;
    w := w * OrigW as real;
    h := h * OrigH as real;
    // letterbox scaling
    x := x * scale;
    y := y * scale;
    w := w * scale;
    h := h * scale;
    y := y + padTop as real;
    // normalise to 640x640
    x := x / TargetW as real;
    y := y / TargetH as real;
    w := w / TargetW as real;
    h := h / TargetH as real;
  }

  /**
   * The keypoint loop of adjust_label_line: walks the values two at a time and
   * renormalises each (kx, ky) pair; an x without its y raises IndexError (None here).
   */
  method AdjustKeypointList(kps: seq<real>, scale: real, padTop: int) returns (r: Option<seq<real>>)
    ensures r.None? <==> |kps| % 2 == 1
    ensures r.Some? ==> |r.value| == |kps|
    ensures r.Some? ==> forall j :: 0 <= j < |kps| ==> r.value[j] == AdjustValue(j + 4, kps[j], scale, padTop)
  {
    var newKps: seq<real> := [];
    var i := 0;
    while i < |kps|
      invariant 0 <= i <= |kps| && i % 2 == 0
      invariant |newKps| == i
      invariant forall j :: 0 <= j < i ==> newKps[j] == AdjustValue(j + 4, kps[j], scale, padTop)
    {
      if i + 1 >= |kps| {
        return None;
      }
      var kx := kps[i] * OrigW as real;
      var ky := kps[i + 1] * OrigH as real;
      kx := kx * scale / TargetW as real;
      ky := (ky * scale + padTop as real) / TargetH as real;
      KeypointPairValues(i, kps[i], kps[i + 1], scale, padTop);
      AppendPair(kps, newKps, i, kx, ky, scale, padTop);
      newKps := newKps + [kx, ky];
      i := i + 2;
    }
    return Some(newKps);
  }

  /** Appending the renormalised pair i, i + 1 extends the renormalised prefix by two. */
  lemma AppendPair(kps: seq<real>, done: seq<real>, i: nat, kx: real, ky: real, scale: real, padTop: int)
    requires i + 1 < |kps| && |done| == i
    requires forall j :: 0 <= j < i ==> done[j] == AdjustValue(j + 4, kps[j], scale, padTop)
    requires kx == AdjustValue(i + 4, kps[i], scale, padTop) && ky == AdjustValue(i + 5, kps[i + 1], scale, padTop)
    ensures forall j :: 0 <= j < i + 2 ==> (done + [kx, ky])[j] == AdjustValue(j + 4, kps[j], scale, padTop)
  {
  }

  /** The kx and ky updates of one loop pass are the renormalisation of keypoint values i and i + 1. */
  lemma KeypointPairValues(i: nat, kx: real, ky: real, scale: real, padTop: int)
    requires i % 2 == 0
    ensures kx * OrigW as real * scale / TargetW as real == AdjustValue(i + 4, kx, scale, padTop)
    ensures (ky * OrigH as real * scale + padTop as real) / TargetH as real == AdjustValue(i + 5, ky, scale, padTop)
  {
  }

  // ---------------------------------------------------------------------------
  // process_set: the line filter
  // ---------------------------------------------------------------------------

  datatype Outcome = Written(lines: seq<LabelLine>) | Failed(error: PyError)

  /** One iteration of the process_set loop: keep an adjusted line, drop an invalid one, stop on an exception. */
  function Step(prev: Outcome, adj: Adjustment): (r: Outcome)
    ensures prev.Failed? ==> r == prev
    ensures prev.Written? && adj.Raised? ==> r == Failed(adj.error)
    ensures prev.Written? && adj.Invalid? ==> r == prev
    // lines already kept stay kept, and at most the adjusted line is added
    ensures r.Written? ==> prev.Written? && prev.lines <= r.lines && |r.lines| <= |prev.lines| + 1
    ensures r.Written? && adj.Adjusted? ==> |r.lines| > 0 && r.lines[|r.lines| - 1] == adj.line
  {
    match prev
    case Failed(e) => Failed(e)
    case Written(kept) =>
      match adj
      case Invalid => Written(kept)
      case Adjusted(l) => Written(kept + [l])
      case Raised(e) => Failed(e)
  }

  /** The label lines process_set writes back, or the exception that stops it. */
  function KeptLines(lines: seq<string>, scale: real, padTop: int, parse: string -> Option<real>): (r: Outcome)
    // never more lines are written back than were read
    ensures r.Written? ==> |r.lines| <= |lines|
  {
    if lines == [] then Written([])
    else Step(KeptLines(lines[..|lines| - 1], scale, padTop, parse), AdjustParts(Split(lines[|lines| - 1]), scale, padTop, parse))
  }

  /** Filtering a concatenation keeps the kept lines of both parts, in order. */
  lemma {:induction false} KeptLinesAppend(a: seq<string>, b: seq<string>, scale: real, padTop: int, parse: string -> Option<real>)
    requires KeptLines(a, scale, padTop, parse).Written? && KeptLines(b, scale, padTop, parse).Written?
    ensures KeptLines(a + b, scale, padTop, parse) ==
            Written(KeptLines(a, scale, padTop, parse).lines + KeptLines(b, scale, padTop, parse).lines)
  {
    if b == [] {
      assert a + b == a;
    } else {
      var b0 := b[..|b| - 1];
      var last := AdjustParts(Split(b[|b| - 1]), scale, padTop, parse);
      assert (a + b)[..|a + b| - 1] == a + b0;
      assert (a + b)[|a + b| - 1] == b[|b| - 1];
      assert KeptLines(a + b, scale, padTop, parse) == Step(KeptLines(a + b0, scale, padTop, parse), last);
      assert KeptLines(b, scale, padTop, parse) == Step(KeptLines(b0, scale, padTop, parse), last);
      KeptLinesAppend(a, b0, scale, padTop, parse);
    }
  }

  /** A single line is kept exactly when it is adjusted; an invalid line is dropped; an exception stops the file. */
  lemma KeptSingle(line: string, scale: real, padTop: int, parse: string -> Option<real>)
    ensures KeptLines([line], scale, padTop, parse) ==
              match AdjustParts(Split(line), scale, padTop, parse)
              case Invalid => Written([])
              case Adjusted(l) => Written([l])
              case Raised(e) => Failed(e)
  {
  }

  /** Once a line raises, nothing after it matters. */
  lemma {:induction false} KeptLinesStopsAtError(a: seq<string>, b: seq<string>, scale: real, padTop: int, parse: string -> Option<real>)
    requires KeptLines(a, scale, padTop, parse).Failed?
    ensures KeptLines(a + b, scale, padTop, parse) == KeptLines(a, scale, padTop, parse)
  {
    if b == [] {
      assert a + b == a;
    } else {
      var b0 := b[..|b| - 1];
      assert (a + b)[..|a + b| - 1] == a + b0;
      KeptLinesStopsAtError(a, b0, scale, padTop, parse);
    }
  }

  /** A kept concatenation whose second part raises raises too. */
  lemma {:induction false} KeptLinesFailsAfter(a: seq<string>, b: seq<string>, scale: real, padTop: int, parse: string -> Option<real>)
    requires KeptLines(a, scale, padTop, parse).Written? && KeptLines(b, scale, padTop, parse).Failed?
    ensures KeptLines(a + b, scale, padTop, parse).Failed?
  {
    var b0 := b[..|b| - 1];
    var last := AdjustParts(Split(b[|b| - 1]), scale, padTop, parse);
    assert (a + b)[..|a + b| - 1] == a + b0;
    assert (a + b)[|a + b| - 1] == b[|b| - 1];
    assert KeptLines(a + b, scale, padTop, parse) == Step(KeptLines(a + b0, scale, padTop, parse), last);
    assert KeptLines(b, scale, padTop, parse) == Step(KeptLines(b0, scale, padTop, parse), last);
    if KeptLines(b0, scale, padTop, parse).Failed? {
      KeptLinesFailsAfter(a, b0, scale, padTop, parse);
    } else {
      KeptLinesAppend(a, b0, scale, padTop, parse);
    }
  }

  /** Whether no line of the file makes adjust_label_line raise. */
  predicate NoneRaises(lines: seq<string>, scale: real, padTop: int, parse: string -> Option<real>)
  {
    forall i :: 0 <= i < |lines| ==> !AdjustParts(Split(lines[i]), scale, padTop, parse).Raised?
  }

  /** The adjusted lines of a file, read front to back. */
  function AdjustedLines(lines: seq<string>, scale: real, padTop: int, parse: string -> Option<real>): seq<LabelLine>
  {
    if lines == [] then []
    else
      var first := match AdjustParts(Split(lines[0]), scale, padTop, parse)
        case Adjusted(l) => [l]
        case _ => [];
      first + AdjustedLines(lines[1..], scale, padTop, parse)
  }

  /**
   * process_set writes back exactly the lines adjust_label_line turns into label lines,
   * in their original order, when no line raises; when one raises, nothing is written.
   */
  lemma {:induction false} KeptLinesFilter(lines: seq<string>, scale: real, padTop: int, parse: string -> Option<real>)
    ensures NoneRaises(lines, scale, padTop, parse) ==>
              KeptLines(lines, scale, padTop, parse) == Written(AdjustedLines(lines, scale, padTop, parse))
    ensures !NoneRaises(lines, scale, padTop, parse) ==> KeptLines(lines, scale, padTop, parse).Failed?
  {
    if lines != [] {
      var head, rest := [lines[0]], lines[1..];
      assert lines == head + rest;
      KeptSingle(lines[0], scale, padTop, parse);
      KeptLinesFilter(rest, scale, padTop, parse);
      assert forall i :: 1 <= i < |lines| ==> lines[i] == rest[i - 1];
      if AdjustParts(Split(lines[0]), scale, padTop, parse).Raised? {
        KeptLinesStopsAtError(head, rest, scale, padTop, parse);
      } else if !NoneRaises(rest, scale, padTop, parse) {
        KeptLinesFailsAfter(head, rest, scale, padTop, parse);
      } else {
        KeptLinesAppend(head, rest, scale, padTop, parse);
      }
    }
  }

  /** The filter of the first i + 1 lines is one more step after the filter of the first i. */
  lemma KeptLinesNext(lines: seq<string>, i: nat, scale: real, padTop: int, parse: string -> Option<real>)
    requires i < |lines|
    ensures KeptLines(lines[..i + 1], scale, padTop, parse) ==
              Step(KeptLines(lines[..i], scale, padTop, parse), AdjustParts(Split(lines[i]), scale, padTop, parse))
  {
    assert lines[..i + 1][..i] == lines[..i];
  }

  /** A line that raises after lines written without error is the outcome of the whole file. */
  lemma KeptLinesFailAt(lines: seq<string>, i: nat, scale: real, padTop: int, parse: string -> Option<real>)
    requires i < |lines| && KeptLines(lines[..i], scale, padTop, parse).Written?
    requires AdjustParts(Split(lines[i]), scale, padTop, parse).Raised?
    ensures KeptLines(lines, scale, padTop, parse) == Failed(AdjustParts(Split(lines[i]), scale, padTop, parse).error)
  {
    KeptLinesNext(lines, i, scale, padTop, parse);
    KeptLinesStopsAtError(lines[..i + 1], lines[i + 1..], scale, padTop, parse);
    assert lines[..i + 1] + lines[i + 1..] == lines;
  }

  /** The loop of process_set over the lines of one label file. */
  method ProcessLines(lines: seq<string>, scale: real, padTop: int, parse: string -> Option<real>) returns (r: Outcome)
    ensures r == KeptLines(lines, scale, padTop, parse)
  {
    var newLines: seq<LabelLine> := [];
    for i := 0 to |lines|
      invariant KeptLines(lines[..i], scale, padTop, parse) == Written(newLines)
    {
      var adj := AdjustLabelLine(lines[i], scale, padTop, parse);
      KeptLinesNext(lines, i, scale, padTop, parse);
      match adj {
        case Invalid =>
        case Adjusted(l) =>
          newLines := newLines + [l];
        case Raised(e) =>
          KeptLinesFailAt(lines, i, scale, padTop, parse);
          return Failed(e);
      }
    }
    assert lines[..|lines|] == lines;
    return Written(newLines);
  }
}
