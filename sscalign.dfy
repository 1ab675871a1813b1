// The slow-scan alignment tool: the affine map from image to stage
// coordinates (stretch, then rotation, then translation), the one- and
// two-point alignments, the marker dispatch of `align`, the scroll zoom, the
// bounding box of the transformed image and the names `save` writes to.
// Trigonometry is a parameter: the cosine and sine of the rotation are given
// with it, and the rotating two-point alignment is a parameter of `align`.
module SscAlign {
  import opened Common

  /** A point or a vector in the plane. */
  datatype Pair = Pair(x: real, y: real)

  function Sub(a: Pair, b: Pair): Pair
  {
    Pair(a.x - b.x, a.y - b.y)
  }

  function Add(a: Pair, b: Pair): Pair
  {
    Pair(a.x + b.x, a.y + b.y)
  }

  /** The number of alignment markers the window offers. */
  const MARKS: nat := 4

  /**
   * The map `show_im` applies to the image: scale by `stretch`, rotate by the
   * angle whose cosine and sine are `cos` and `sin`, then translate.
   */
  function Transform(stretch: Pair, cos: real, sin: real, translation: Pair, p: Pair): Pair
  {
    var q := Pair(p.x * stretch.x, p.y * stretch.y);
    Pair(cos * q.x - sin * q.y + translation.x, sin * q.x + cos * q.y + translation.y)
  }

  /** The smallest and largest of four numbers. */
  function Min4(a: real, b: real, c: real, d: real): (r: real)
    ensures r <= a && r <= b && r <= c && r <= d
    ensures r == a || r == b || r == c || r == d
  {
    var ab := if a <= b then a else b;
    var cd := if c <= d then c else d;
    if ab <= cd then ab else cd
  }

  function Max4(a: real, b: real, c: real, d: real): (r: real)
    ensures r >= a && r >= b && r >= c && r >= d
    ensures r == a || r == b || r == c || r == d
  {
    var ab := if a >= b then a else b;
    var cd := if c >= d then c else d;
    if ab >= cd then ab else cd
  }

  /** A rectangle in stage coordinates, as `(u1, u2, v1, v2)`. */
  datatype Extent = Extent(u1: real, u2: real, v1: real, v2: real)

  /**
   * `get_extent`: the bounding box of the four transformed corners of the
   * image, whose extent is `x1..x2` by `y1..y2` in pixel centres.
   */
  function GetExtent(stretch: Pair, cos: real, sin: real, translation: Pair,
                     x1: real, x2: real, y1: real, y2: real): (e: Extent)
    ensures e.u1 <= e.u2 && e.v1 <= e.v2
    ensures forall p :: p in Corners(x1, x2, y1, y2) ==>
      var t := Transform(stretch, cos, sin, translation, p);
      e.u1 <= t.x <= e.u2 && e.v1 <= t.y <= e.v2
    ensures exists p :: p in Corners(x1, x2, y1, y2) && Transform(stretch, cos, sin, translation, p).x == e.u1
    ensures exists p :: p in Corners(x1, x2, y1, y2) && Transform(stretch, cos, sin, translation, p).x == e.u2
    ensures exists p :: p in Corners(x1, x2, y1, y2) && Transform(stretch, cos, sin, translation, p).y == e.v1
    ensures exists p :: p in Corners(x1, x2, y1, y2) && Transform(stretch, cos, sin, translation, p).y == e.v2
  {
    var c := Corners(x1, x2, y1, y2);
    var bl := Transform(stretch, cos, sin, translation, c[0]);
    var tr := Transform(stretch, cos, sin, translation, c[1]);
    var tl := Transform(stretch, cos, sin, translation, c[2]);
    var br := Transform(stretch, cos, sin, translation, c[3]);
    Extent(Min4(bl.x, tr.x, tl.x, br.x), Max4(bl.x, tr.x, tl.x, br.x),
           Min4(bl.y, tr.y, tl.y, br.y), Max4(bl.y, tr.y, tl.y, br.y))
  }

  /** The outer corners of the image: bottom left, top right, top left, bottom right. */
  function Corners(x1: real, x2: real, y1: real, y2: real): seq<Pair>
  {
    [Pair(x1 - 0.5, y1 - 0.5), Pair(x2 + 0.5, y2 + 0.5), Pair(x1 - 0.5, y2 + 0.5), Pair(x2 + 0.5, y1 - 0.5)]
  }

  // ----- Zoom -----

  const BASE_SCALE: real := 1.1

  /** The wheel's button as matplotlib names it. */
  function ScaleFactor(button: string): (s: real)
    ensures button == "up" ==> s * BASE_SCALE == 1.0
    ensures button == "down" ==> s == BASE_SCALE
    ensures button != "up" && button != "down" ==> s == 1.0
  {
    if button == "up" then 1.0 / BASE_SCALE
    else if button == "down" then BASE_SCALE
    else 1.0
  }

  /** `figure_onscroll` along one axis: the limits scaled about the cursor. */
  function Zoom(lo: real, hi: real, at: real, button: string): (r: (real, real))
  {
    var s := ScaleFactor(button);
    (at - (at - lo) * s, at + (hi - at) * s)
  }

  /**
   * The cursor keeps its place: its distances to both limits, and the width,
   * are scaled by the same factor, so a cursor inside stays inside.
   */
  lemma ZoomAboutCursor(lo: real, hi: real, at: real, button: string)
    ensures var r := Zoom(lo, hi, at, button); var s := ScaleFactor(button);
      && at - r.0 == (at - lo) * s && r.1 - at == (hi - at) * s
      && r.1 - r.0 == (hi - lo) * s
      && (lo <= at <= hi ==> r.0 <= at <= r.1)
      && (button == "up" && lo < at < hi ==> lo < r.0 && r.1 < hi)
  {
    var s := ScaleFactor(button);
    if button == "up" {
      assert s == 10.0 / 11.0;
    } else if button == "down" {
      assert s == 11.0 / 10.0;
    }
    var r := Zoom(lo, hi, at, button);
    assert r.0 == at - (at - lo) * s && r.1 == at + (hi - at) * s;
    if lo <= at <= hi {
      ScaledStaysPositive(at - lo, s);
      ScaledStaysPositive(hi - at, s);
    }
    if button == "up" && lo < at < hi {
      ZoomingInShrinks(at - lo);
      ZoomingInShrinks(hi - at);
    }
  }

  lemma ScaledStaysPositive(d: real, s: real)
    requires d >= 0.0 && s > 0.0
    ensures d * s >= 0.0
  {
  }

  lemma ZoomingInShrinks(d: real)
    requires d > 0.0
    ensures d * (10.0 / 11.0) < d
  {
  }

  /** Scrolling up then down at the same place restores the limits. */
  lemma ZoomInOut(lo: real, hi: real, at: real)
    ensures var r := Zoom(lo, hi, at, "up"); Zoom(r.0, r.1, at, "down") == (lo, hi)
  {
    assert ScaleFactor("up") == 10.0 / 11.0;
    assert ScaleFactor("down") == 11.0 / 10.0;
    var r := Zoom(lo, hi, at, "up");
    assert r.0 == at - (at - lo) * (10.0 / 11.0) && r.1 == at + (hi - at) * (10.0 / 11.0);
    var q := Zoom(r.0, r.1, at, "down");
    assert q.0 == at - (at - r.0) * (11.0 / 10.0) && q.1 == at + (r.1 - at) * (11.0 / 10.0);
  }

  // ----- The alignment state -----

  /** A marker the user placed: its position, and the texts of its U and V fields. */
  datatype Marker = Marker(xy: Pair, u: string, v: string)

  /** A marker counts when both its U and V texts parse as numbers. */
  predicate ValidMarker(m: Marker, float: string -> Option<real>)
  {
    float(m.u).Some? && float(m.v).Some?
  }

  /** One valid marker: where it was put (XY) and where it should be (UV). */
  datatype Point = Point(index: nat, xy: Pair, uv: Pair)

  /** The valid markers among the first ones, in marker order. */
  function ValidPoints(marks: seq<Option<Marker>>, float: string -> Option<real>): (r: seq<Point>)
    ensures |r| <= |marks|
    ensures forall k :: 0 <= k < |r| ==>
      r[k].index < |marks| && marks[r[k].index].Some? && ValidMarker(marks[r[k].index].value, float)
    decreases |marks|
  {
    if |marks| == 0 then []
    else
      var init := ValidPoints(marks[..|marks| - 1], float);
      var i := |marks| - 1;
      match marks[i]
      case None => init
      case Some(m) =>
        if ValidMarker(m, float) then init + [Point(i, m.xy, Pair(float(m.u).value, float(m.v).value))]
        else init
  }

  /** Some point of `r` comes from marker `i`. */
  predicate Listed(r: seq<Point>, i: nat)
  {
    exists k :: 0 <= k < |r| && r[k].index == i
  }

  /** The points come in marker order, so no marker gives two points. */
  predicate InMarkerOrder(r: seq<Point>)
  {
    forall j, k :: 0 <= j < k < |r| ==> r[j].index < r[k].index
  }

  /** Exactly the markers that are present and whose two texts parse are used, each once. */
  lemma ValidPointsExactly(marks: seq<Option<Marker>>, float: string -> Option<real>)
    ensures forall i :: 0 <= i < |marks| && marks[i].Some? && ValidMarker(marks[i].value, float) ==>
      Listed(ValidPoints(marks, float), i)
    ensures InMarkerOrder(ValidPoints(marks, float))
  {
    ValidPointsComplete(marks, float);
    ValidPointsOrdered(marks, float);
  }

  /** The points of all markers but the last come first, unchanged. */
  lemma ValidPointsPrefix(marks: seq<Option<Marker>>, float: string -> Option<real>)
    requires |marks| > 0
    ensures var r0 := ValidPoints(marks[..|marks| - 1], float); var r := ValidPoints(marks, float);
      |r0| <= |r| <= |r0| + 1 && r[..|r0|] == r0 &&
      (|r| == |r0| + 1 <==> marks[|marks| - 1].Some? && ValidMarker(marks[|marks| - 1].value, float)) &&
      (|r| == |r0| + 1 ==> r[|r0|].index == |marks| - 1)
  {
  }

  lemma {:induction false} ValidPointsComplete(marks: seq<Option<Marker>>, float: string -> Option<real>)
    ensures forall i :: 0 <= i < |marks| && marks[i].Some? && ValidMarker(marks[i].value, float) ==>
      Listed(ValidPoints(marks, float), i)
    decreases |marks|
  {
    if |marks| > 0 {
      var init := marks[..|marks| - 1];
      var last := |marks| - 1;
      ValidPointsComplete(init, float);
      ValidPointsPrefix(marks, float);
      var r0 := ValidPoints(init, float);
      var r := ValidPoints(marks, float);
      forall i | 0 <= i < |marks| && marks[i].Some? && ValidMarker(marks[i].value, float)
        ensures Listed(r, i)
      {
        if i == last {
          assert r[|r0|].index == i;
        } else {
          assert init[i] == marks[i];
          assert Listed(r0, i);
          var k :| 0 <= k < |r0| && r0[k].index == i;
          assert r[k] == r[..|r0|][k];
        }
      }
    }
  }

  lemma {:induction false} ValidPointsOrdered(marks: seq<Option<Marker>>, float: string -> Option<real>)
    ensures InMarkerOrder(ValidPoints(marks, float))
    decreases |marks|
  {
    if |marks| > 0 {
      var init := marks[..|marks| - 1];
      ValidPointsOrdered(init, float);
      ValidPointsPrefix(marks, float);
      var r0 := ValidPoints(init, float);
      var r := ValidPoints(marks, float);
      forall j, k | 0 <= j < k < |r|
        ensures r[j].index < r[k].index
      {
        assert r[j] == r[..|r0|][j];
        if k < |r0| {
          assert r[k] == r[..|r0|][k];
        } else {
          assert r0[j].index < |init|;
        }
      }
    }
  }

  const NO_MARKER: string := "We need at least one valid marker for alignment"
  const TOO_MANY_MARKERS: string := "3- and 4-point alignment is not supported yet"

  /** What `align` does with the markers it counted. */
  datatype Action = Warn(message: string) | OnePoint(p: Point) | TwoPoint(p: Point, q: Point)

  /** One marker translates, two align with rotation, none or three and more are refused. */
  function Dispatch(points: seq<Point>): (a: Action)
    ensures a.Warn? <==> |points| == 0 || |points| >= 3
    ensures |points| == 0 ==> a == Warn(NO_MARKER)
    ensures |points| >= 3 ==> a == Warn(TOO_MANY_MARKERS)
    ensures |points| == 1 <==> a.OnePoint?
    ensures |points| == 2 <==> a.TwoPoint?
    ensures a.OnePoint? ==> a.p == points[0]
    ensures a.TwoPoint? ==> a.p == points[0] && a.q == points[1]
  {
    if |points| == 0 then Warn(NO_MARKER)
    else if |points| == 1 then OnePoint(points[0])
    else if |points| == 2 then TwoPoint(points[0], points[1])
    else Warn(TOO_MANY_MARKERS)
  }

  /** The stretch, rotation and translation the rotating two-point alignment gives. */
  datatype Placement = Placement(stretch: Pair, rotation: real, translation: Pair)

  /** The markers after a successful alignment: each used marker moves to its UV coordinates. */
  function Moved(marks: seq<Option<Marker>>, points: seq<Point>): (r: seq<Option<Marker>>)
    requires forall k :: 0 <= k < |points| ==> points[k].index < |marks| && marks[points[k].index].Some?
    ensures |r| == |marks|
    ensures forall i :: 0 <= i < |marks| ==> r[i].Some? == marks[i].Some?
    decreases |points|
  {
    if |points| == 0 then marks
    else
      var p := points[|points| - 1];
      var m := Moved(marks, points[..|points| - 1]);
      m[p.index := Some(m[p.index].value.(xy := p.uv))]
  }

  class Aligner {
    var stretch: Pair
    var translation: Pair
    var rotation: real
    var marks: seq<Option<Marker>>
    var xlim: (real, real)
    var ylim: (real, real)
    /** The last warning shown, if any. */
    var warning: Option<string>

    constructor ()
      ensures stretch == Pair(1.0, 1.0) && translation == Pair(0.0, 0.0) && rotation == 0.0
      ensures marks == [None, None, None, None] && warning == None
      ensures xlim == (0.0, 1.0) && ylim == (0.0, 1.0)
    {
      stretch := Pair(1.0, 1.0);
      translation := Pair(0.0, 0.0);
      rotation := 0.0;
      marks := [None, None, None, None];
      xlim := (0.0, 1.0);
      ylim := (0.0, 1.0);
      warning := None;
    }

    /**
     * `translate_stretch_twopoint`: the stretch maps the segment from `xy1` to
     * `xy2` onto the one from `uv1` to `uv2`, component-wise; the translation
     * is `uv1 - xy1`.
     */
    method TranslateStretchTwoPoint(xy1: Pair, uv1: Pair, xy2: Pair, uv2: Pair)
      requires xy2.x != xy1.x && xy2.y != xy1.y
      modifies this`stretch, this`translation
      ensures stretch == Pair((uv2.x - uv1.x) / (xy2.x - xy1.x), (uv2.y - uv1.y) / (xy2.y - xy1.y))
      ensures stretch.x * (xy2.x - xy1.x) == uv2.x - uv1.x
      ensures stretch.y * (xy2.y - xy1.y) == uv2.y - uv1.y
      ensures translation == Sub(uv1, xy1)
    {
      stretch := Pair((uv2.x - uv1.x) / (xy2.x - xy1.x), (uv2.y - uv1.y) / (xy2.y - xy1.y));
      translation := Sub(uv1, xy1);
    }

    /** `translate_onepoint`: the translation is shifted by `uv1 - xy1`; stretch and rotation stay. */
    method TranslateOnePoint(xy1: Pair, uv1: Pair)
      modifies this`translation
      ensures translation == Add(old(translation), Sub(uv1, xy1))
    {
      translation := Add(translation, Sub(uv1, xy1));
    }

    /**
     * The placement `load_image` computes for an image of `width` by `height`
     * pixels whose corners should land on `lowerLeft` and `upperRight`, and
     * the square-pixel correction it offers: with `accept`, the vertical
     * stretch becomes the horizontal one.
     */
    method Place(width: real, height: real, lowerLeft: Pair, upperRight: Pair, accept: bool)
      requires width > 0.0 && height > 0.0
      modifies this`stretch, this`translation, this`rotation
      ensures translation == lowerLeft && rotation == old(rotation)
      ensures stretch.x * width == upperRight.x - lowerLeft.x
      ensures var fit := Pair((upperRight.x - lowerLeft.x) / width, (upperRight.y - lowerLeft.y) / height);
        stretch == if accept && AspectMismatch(fit, width, height) then Pair(fit.x, fit.x) else fit
    {
      TranslateStretchTwoPoint(Pair(0.0, 0.0), lowerLeft, Pair(width, height), upperRight);
      if AspectMismatch(stretch, width, height) && accept {
        stretch := stretch.(y := stretch.x);
      }
    }

    /**
     * `align`: counts the markers whose U and V texts both parse, then
     * translates with one, aligns with rotation with two (`twoPoint` gives
     * the result), or warns and changes nothing otherwise. After an
     * alignment each used marker moves to its UV position.
     */
    method Align(float: string -> Option<real>, twoPoint: (Placement, Point, Point) -> Placement)
      returns (points: seq<Point>)
      modifies this`stretch, this`translation, this`rotation, this`marks, this`warning
      ensures points == ValidPoints(old(marks), float)
      ensures Dispatch(points).Warn? ==>
        && warning == Some(Dispatch(points).message)
        && stretch == old(stretch) && translation == old(translation)
        && rotation == old(rotation) && marks == old(marks)
      ensures Dispatch(points).OnePoint? ==>
        var p := Dispatch(points).p;
        && translation == Add(old(translation), Sub(p.uv, p.xy))
        && stretch == old(stretch) && rotation == old(rotation)
        && marks == Moved(old(marks), points) && warning == old(warning)
      ensures Dispatch(points).TwoPoint? ==>
        var a := Dispatch(points);
        && Placement(stretch, rotation, translation)
           == twoPoint(Placement(old(stretch), old(rotation), old(translation)), a.p, a.q)
        && marks == Moved(old(marks), points) && warning == old(warning)
    {
      points := CollectPoints(marks, float);
      var action := Dispatch(points);
      match action {
        case Warn(message) =>
          warning := Some(message);
          return;
        case OnePoint(p) =>
          TranslateOnePoint(p.xy, p.uv);
        case TwoPoint(p, q) =>
          var placed := twoPoint(Placement(stretch, rotation, translation), p, q);
          stretch, rotation, translation := placed.stretch, placed.rotation, placed.translation;
      }
      MoveMarks(points);
    }

    /** Moves each used marker to its UV coordinates. */
    method MoveMarks(points: seq<Point>)
      requires forall k :: 0 <= k < |points| ==> points[k].index < |marks| && marks[points[k].index].Some?
      modifies this`marks
      ensures marks == Moved(old(marks), points)
    {
      ghost var m0 := marks;
      for k := 0 to |points|
        invariant marks == Moved(m0, points[..k])
      {
        assert points[..k + 1][..k] == points[..k];
        var p := points[k];
        marks := marks[p.index := Some(marks[p.index].value.(xy := p.uv))];
      }
      assert points[..|points|] == points;
    }

    /** `figure_onscroll`: both axes zoom about the cursor. */
    method OnScroll(at: Pair, button: string)
      modifies this`xlim, this`ylim
      ensures xlim == Zoom(old(xlim).0, old(xlim).1, at.x, button)
      ensures ylim == Zoom(old(ylim).0, old(ylim).1, at.y, button)
    {
      xlim := Zoom(xlim.0, xlim.1, at.x, button);
      ylim := Zoom(ylim.0, ylim.1, at.y, button);
    }
  }

  /** The marker loop of `align`: the valid markers, in order. */
  method CollectPoints(marks: seq<Option<Marker>>, float: string -> Option<real>) returns (points: seq<Point>)
    ensures points == ValidPoints(marks, float)
  {
    points := [];
    for i := 0 to |marks|
      invariant points == ValidPoints(marks[..i], float)
    {
      assert marks[..i + 1][..i] == marks[..i];
      if marks[i].Some? {
        var u := float(marks[i].value.u);
        var v := float(marks[i].value.v);
        if u.Some? && v.Some? {
          points := points + [Point(i, marks[i].value.xy, Pair(u.value, v.value))];
        }
      }
    }
    assert marks[..|marks|] == marks;
  }

  /**
   * Whether the pixels come out non-square: the UV aspect ratio differs from
   * the image's by more than 1e-3. A zero horizontal stretch divides by zero,
   * which numpy turns into an infinite ratio (a mismatch) or, over zero, into
   * NaN (no mismatch).
   */
  predicate AspectMismatch(stretch: Pair, width: real, height: real)
    requires width > 0.0
  {
    if stretch.x == 0.0 then stretch.y * height != 0.0
    else
      var d := stretch.y * height / (stretch.x * width) - height / width;
      d > 1.0 / 1000.0 || -d > 1.0 / 1000.0
  }

  /**
   * At `load_image`'s call, with no rotation, the map sends the image's
   * origin to the lower-left UV corner and its far corner to the upper-right one.
   */
  lemma LoadedCornersLand(width: real, height: real, lowerLeft: Pair, upperRight: Pair, stretch: Pair)
    requires width > 0.0 && height > 0.0
    requires stretch.x * width == upperRight.x - lowerLeft.x && stretch.y * height == upperRight.y - lowerLeft.y
    ensures Transform(stretch, 1.0, 0.0, lowerLeft, Pair(0.0, 0.0)) == lowerLeft
    ensures Transform(stretch, 1.0, 0.0, lowerLeft, Pair(width, height)) == upperRight
  {
  }

  /** Square pixels need no correction: a stretch with equal components never mismatches. */
  lemma SquarePixelsMatch(s: real, width: real, height: real)
    requires width > 0.0 && s != 0.0
    ensures !AspectMismatch(Pair(s, s), width, height)
  {
    assert s * height / (s * width) == height / width;
  }

  // ----- File names -----

  /** The index of the last `c` in `s`, or -1. */
  function LastIndex(s: string, c: char): (r: int)
    ensures -1 <= r < |s|
    ensures r >= 0 ==> s[r] == c && c !in s[r + 1..]
    ensures r == -1 ==> c !in s
  {
    if |s| == 0 then -1
    else if s[|s| - 1] == c then |s| - 1
    else
      assert s == s[..|s| - 1] + [s[|s| - 1]];
      LastIndex(s[..|s| - 1], c)
  }

  /**
   * `os.path.splitext` on POSIX: the extension starts at the last dot of the
   * last path component, unless only dots precede it there.
   */
  function SplitExt(p: string): (r: (string, string))
    ensures r.0 + r.1 == p
  {
    var sep := LastIndex(p, '/');
    var dot := LastIndex(p, '.');
    if dot > sep && exists i :: sep + 1 <= i < dot && p[i] != '.' then (p[..dot], p[dot..])
    else (p, "")
  }

  /** `os.path.basename` */
  function Basename(p: string): string
  {
    p[LastIndex(p, '/') + 1..]
  }

  /** Where `save` writes: the bitmap, with `.bmp` added unless it ends so already, and the `.ssc` beside it. */
  function SaveNames(chosen: string): (r: (string, string))
  {
    var bmp := if Lower(SplitExt(chosen).1) != ".bmp" then chosen + ".bmp" else chosen;
    (bmp, SplitExt(bmp).0 + ".ssc")
  }

  /** The `.ssc` file's text; `fmt` is `'{:.6f}'`. */
  function SscText(bmp: string, e: Extent, fmt: real -> string): string
  {
    "[SLOWSCAN]\n"
    + "Bitmap=" + Basename(bmp) + "\n"
    + "LowerLeftUV=" + fmt(e.u1) + "," + fmt(e.v1) + "\n"
    + "UpperRightUV=" + fmt(e.u2) + "," + fmt(e.v2) + "\n"
    + "LocalOriginUV=" + fmt(0.0) + "," + fmt(0.0) + "\n"
    + "StageUV=" + fmt(0.0) + "," + fmt(0.0) + "\n"
    + "RotationUV=" + fmt(0.0) + "\n"
  }

  lemma {:induction false} LastIndexAppend(a: string, b: string, c: char)
    ensures c in b ==> LastIndex(a + b, c) == |a| + LastIndex(b, c)
    ensures c !in b ==> LastIndex(a + b, c) == LastIndex(a, c)
    decreases |b|
  {
    if |b| == 0 {
      assert a + b == a;
    } else if b[|b| - 1] != c {
      var b0 := b[..|b| - 1];
      assert (a + b)[..|a + b| - 1] == a + b0;
      assert b == b0 + [b[|b| - 1]];
      LastIndexAppend(a, b0, c);
    }
  }

  /**
   * A plain name gets `.bmp` added and its `.ssc` beside it; a name that
   * already ends in `.bmp`, in any case, keeps it.
   */
  lemma PlainNameGetsBmp(stem: string, ext: string)
    requires |stem| > 0 && '.' !in stem && '/' !in stem
    requires ext == ".bmp" || ext == ".BMP" || ext == ".Bmp"
    ensures SaveNames(stem) == (stem + ".bmp", stem + ".ssc")
    ensures SaveNames(stem + ext) == (stem + ext, stem + ".ssc")
  {
    assert LastIndex(stem, '.') == -1 && LastIndex(stem, '/') == -1;
    assert SplitExt(stem) == (stem, "");
    assert Lower("") == "";
    PlainExt(stem, ".bmp");
    BmpInAnyCase(ext);
    PlainExt(stem, ext);
  }

  lemma BmpInAnyCase(ext: string)
    requires ext == ".bmp" || ext == ".BMP" || ext == ".Bmp"
    ensures Lower(ext) == ".bmp"
  {
    var l := Lower(ext);
    assert |l| == 4 && l[0] == '.' && l[1] == 'b' && l[2] == 'm' && l[3] == 'p';
  }

  /** The extension of a plain name with one dotted suffix is that suffix. */
  lemma PlainExt(stem: string, ext: string)
    requires |stem| > 0 && stem[0] != '.' && '/' !in stem
    requires |ext| > 0 && ext[0] == '.' && '.' !in ext[1..] && '/' !in ext
    ensures SplitExt(stem + ext) == (stem, ext)
  {
    var p := stem + ext;
    assert ext == [ext[0]] + ext[1..];
    LastIndexAppend(stem, ext, '.');
    assert '/' !in p;
    assert LastIndex(ext, '.') == 0 by {
      LastIndexAppend([ext[0]], ext[1..], '.');
    }
    assert p[0] == stem[0];
    assert p[..|stem|] == stem;
  }

  /** Any other extension is kept and `.bmp` is added after it; the `.ssc` then replaces only the `.bmp`. */
  lemma OtherExtensionKept(stem: string)
    requires |stem| > 0 && '.' !in stem && '/' !in stem
    ensures SaveNames(stem + ".png") == (stem + ".png" + ".bmp", stem + ".png" + ".ssc")
  {
    PlainExt(stem, ".png");
    assert Lower(".png") != ".bmp" by { assert Lower(".png")[1] == 'p'; }
    var named := stem + ".png";
    assert named[0] == stem[0] && '/' !in named;
    PlainExt(named, ".bmp");
  }
}
