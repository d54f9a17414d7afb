/**
 * The five Palette shapes and the context calls that draw one of them at the
 * coordinates it is given.  The older revision draws every shape this way at
 * its own coordinates; the newer one draws the same outline at coordinates
 * relative to a pivot, between a transform and its undoing.
 */
module Outlines {
  import opened JsValues
  import opened Context2D

  /** The geometry of a Palette node, one alternative per kind. */
  datatype Shape =
    | LineShape(x1: JsValue, y1: JsValue, x2: JsValue, y2: JsValue)
    | RectShape(x: JsValue, y: JsValue, width: JsValue, height: JsValue)
    | CircleShape(x: JsValue, y: JsValue, radius: JsValue, start: JsValue, end: JsValue, clockwise: bool)
    | ArcShape(x1: JsValue, y1: JsValue, x2: JsValue, y2: JsValue, x3: JsValue, y3: JsValue, radius: JsValue)
    | BezierShape(x1: JsValue, y1: JsValue, x2: JsValue, y2: JsValue,
                  cx1: JsValue, cy1: JsValue, cx2: JsValue, cy2: JsValue)

  /** `if (this.close == true) this.context.closePath();` */
  function Closing(close: bool): seq<Command>
  {
    if close then [ClosePath] else []
  }

  /**
   * The calls that draw `s`: a Line strokes one segment; a Rectangle fills and
   * strokes a rect; a Circle, Arc or Bezier builds one path, closes it when
   * `close` is set, fills it and strokes it.  Fills are stamped with
   * `fillStyle`, strokes with `strokeStyle`.  The Circle passes `clockwise`
   * as the canvas's `anticlockwise` argument.
   */
  function Outline(s: Shape, close: bool, fillStyle: Style, strokeStyle: Style): seq<Command>
  {
    match s
    case LineShape(x1, y1, x2, y2) =>
      [BeginPath, MoveTo(x1, y1), LineTo(x2, y2), Stroke(strokeStyle)]
    case RectShape(x, y, w, h) =>
      [FillRect(x, y, w, h, fillStyle), StrokeRect(x, y, w, h, strokeStyle)]
    case CircleShape(x, y, r, start, end, clockwise) =>
      [BeginPath, Arc(x, y, r, start, ToNumber(end), clockwise)]
      + Closing(close) + [Fill(fillStyle), Stroke(strokeStyle)]
    case ArcShape(x1, y1, x2, y2, x3, y3, r) =>
      [BeginPath, MoveTo(x1, y1), ArcTo(x2, y2, x3, y3, r), LineTo(x3, y3)]
      + Closing(close) + [Fill(fillStyle), Stroke(strokeStyle)]
    case BezierShape(x1, y1, x2, y2, cx1, cy1, cx2, cy2) =>
      [BeginPath, MoveTo(x1, y1), BezierTo(cx1, cy1, cx2, cy2, x2, y2)]
      + Closing(close) + [Fill(fillStyle), Stroke(strokeStyle)]
  }

  /** The shape with every point moved by (dx, dy); lengths and angles are kept. */
  function Shifted(s: Shape, dx: real, dy: real): Shape
  {
    match s
    case LineShape(x1, y1, x2, y2) => LineShape(By(x1, dx), By(y1, dy), By(x2, dx), By(y2, dy))
    case RectShape(x, y, w, h) => RectShape(By(x, dx), By(y, dy), w, h)
    case CircleShape(x, y, r, start, end, cw) => CircleShape(By(x, dx), By(y, dy), r, start, end, cw)
    case ArcShape(x1, y1, x2, y2, x3, y3, r) =>
      ArcShape(By(x1, dx), By(y1, dy), By(x2, dx), By(y2, dy), By(x3, dx), By(y3, dy), r)
    case BezierShape(x1, y1, x2, y2, cx1, cy1, cx2, cy2) =>
      BezierShape(By(x1, dx), By(y1, dy), By(x2, dx), By(y2, dy),
                  By(cx1, dx), By(cy1, dy), By(cx2, dx), By(cy2, dy))
  }

  /** Every coordinate a draw computes with is a number. */
  predicate Numeric(s: Shape)
  {
    match s
    case LineShape(x1, y1, x2, y2) => x1.Num? && y1.Num? && x2.Num? && y2.Num?
    case RectShape(x, y, w, h) => x.Num? && y.Num? && w.Num? && h.Num?
    case CircleShape(x, y, _, _, _, _) => x.Num? && y.Num?
    case ArcShape(x1, y1, x2, y2, x3, y3, _) => x1.Num? && y1.Num? && x2.Num? && y2.Num? && x3.Num? && y3.Num?
    case BezierShape(x1, y1, x2, y2, cx1, cy1, cx2, cy2) =>
      x1.Num? && y1.Num? && x2.Num? && y2.Num? && cx1.Num? && cy1.Num? && cx2.Num? && cy2.Num?
  }

  /** Drawing an outline never touches the transform. */
  lemma OutlineStill(s: Shape, close: bool, fs: Style, ss: Style)
    ensures NoTransforms(Outline(s, close, fs, ss))
  {
  }

  lemma {:induction false} MovedAppend(a: seq<Command>, b: seq<Command>, dx: real, dy: real)
    ensures MovedAll(a + b, dx, dy) == MovedAll(a, dx, dy) + MovedAll(b, dx, dy)
    decreases |a|
  {
    if a == [] {
      assert a + b == b;
    } else {
      var head := [Moved(a[0], dx, dy)];
      assert (a + b)[0] == a[0] && (a + b)[1..] == a[1..] + b;
      MovedAppend(a[1..], b, dx, dy);
      calc {
        MovedAll(a + b, dx, dy);
        head + MovedAll(a[1..] + b, dx, dy);
        head + (MovedAll(a[1..], dx, dy) + MovedAll(b, dx, dy));
        (head + MovedAll(a[1..], dx, dy)) + MovedAll(b, dx, dy);
      }
    }
  }

  /** The calls that build the path of a Circle, Arc or Bezier, before closing and painting. */
  function PathOf(s: Shape): seq<Command>
  {
    match s
    case CircleShape(x, y, r, start, end, clockwise) => [BeginPath, Arc(x, y, r, start, ToNumber(end), clockwise)]
    case ArcShape(x1, y1, x2, y2, x3, y3, r) => [BeginPath, MoveTo(x1, y1), ArcTo(x2, y2, x3, y3, r), LineTo(x3, y3)]
    case BezierShape(x1, y1, x2, y2, cx1, cy1, cx2, cy2) => [BeginPath, MoveTo(x1, y1), BezierTo(cx1, cy1, cx2, cy2, x2, y2)]
    case _ => []
  }

  lemma OutlineOfPath(s: Shape, close: bool, fs: Style, ss: Style)
    requires !s.LineShape? && !s.RectShape?
    ensures Outline(s, close, fs, ss) == PathOf(s) + (Closing(close) + [Fill(fs), Stroke(ss)])
  {
  }

  lemma MovedPath(s: Shape, dx: real, dy: real)
    requires !s.LineShape? && !s.RectShape?
    ensures MovedAll(PathOf(s), dx, dy) == PathOf(Shifted(s, dx, dy))
  {
    var l, r := MovedAll(PathOf(s), dx, dy), PathOf(Shifted(s, dx, dy));
    assert |l| == |r|;
    forall i | 0 <= i < |l| ensures l[i] == r[i] { }
  }

  /** A Line's calls, moved, are the calls for the moved Line. */
  lemma MovedLine(s: Shape, close: bool, fs: Style, ss: Style, dx: real, dy: real)
    requires s.LineShape?
    ensures MovedAll(Outline(s, close, fs, ss), dx, dy)
            == Outline(Shifted(s, dx, dy), close, MovedStyle(fs, dx, dy), MovedStyle(ss, dx, dy))
  {
    var l := MovedAll(Outline(s, close, fs, ss), dx, dy);
    assert l == [BeginPath, MoveTo(By(s.x1, dx), By(s.y1, dy)), LineTo(By(s.x2, dx), By(s.y2, dy)),
                 Stroke(MovedStyle(ss, dx, dy))];
  }

  /** A Rectangle's calls, moved, are the calls for the moved Rectangle. */
  lemma MovedRect(s: Shape, close: bool, fs: Style, ss: Style, dx: real, dy: real)
    requires s.RectShape?
    ensures MovedAll(Outline(s, close, fs, ss), dx, dy)
            == Outline(Shifted(s, dx, dy), close, MovedStyle(fs, dx, dy), MovedStyle(ss, dx, dy))
  {
    var x, y := By(s.x, dx), By(s.y, dy);
    var l := MovedAll(Outline(s, close, fs, ss), dx, dy);
    assert l == [FillRect(x, y, s.width, s.height, MovedStyle(fs, dx, dy)),
                 StrokeRect(x, y, s.width, s.height, MovedStyle(ss, dx, dy))];
  }

  /** Closing, filling and stroking a path, moved: the same calls with moved styles. */
  lemma MovedTail(close: bool, fs: Style, ss: Style, dx: real, dy: real)
    ensures MovedAll(Closing(close) + [Fill(fs), Stroke(ss)], dx, dy)
            == Closing(close) + [Fill(MovedStyle(fs, dx, dy)), Stroke(MovedStyle(ss, dx, dy))]
  {
    var l, r := MovedAll(Closing(close) + [Fill(fs), Stroke(ss)], dx, dy),
                Closing(close) + [Fill(MovedStyle(fs, dx, dy)), Stroke(MovedStyle(ss, dx, dy))];
    assert |l| == |r|;
    forall i | 0 <= i < |l| ensures l[i] == r[i] { }
  }

  /** Moving a drawn outline is drawing the moved shape. */
  lemma MovedOutline(s: Shape, close: bool, fs: Style, ss: Style, dx: real, dy: real)
    ensures MovedAll(Outline(s, close, fs, ss), dx, dy)
            == Outline(Shifted(s, dx, dy), close, MovedStyle(fs, dx, dy), MovedStyle(ss, dx, dy))
  {
    if s.LineShape? {
      MovedLine(s, close, fs, ss, dx, dy);
    } else if s.RectShape? {
      MovedRect(s, close, fs, ss, dx, dy);
    } else {
      var mfs, mss := MovedStyle(fs, dx, dy), MovedStyle(ss, dx, dy);
      var tail := Closing(close) + [Fill(fs), Stroke(ss)];
      MovedTail(close, fs, ss, dx, dy);
      OutlineOfPath(s, close, fs, ss);
      OutlineOfPath(Shifted(s, dx, dy), close, mfs, mss);
      MovedAppend(PathOf(s), tail, dx, dy);
      MovedPath(s, dx, dy);
    }
  }

  // ---------------------------------------------------------------------------
  // Painting order.

  datatype Painting = Filled(style: Style) | Stroked(style: Style)

  /** The paint calls of `cmds`, in order, with the style each was made with. */
  function Paints(cmds: seq<Command>): seq<Painting>
  {
    if cmds == [] then []
    else
      var rest := Paints(cmds[1..]);
      match cmds[0]
      case Fill(sh) => [Filled(sh)] + rest
      case FillRect(_, _, _, _, sh) => [Filled(sh)] + rest
      case Stroke(sh) => [Stroked(sh)] + rest
      case StrokeRect(_, _, _, _, sh) => [Stroked(sh)] + rest
      case _ => rest
  }

  lemma {:induction false} PaintsAppend(a: seq<Command>, b: seq<Command>)
    ensures Paints(a + b) == Paints(a) + Paints(b)
    decreases |a|
  {
    if a == [] {
      assert a + b == b;
    } else {
      assert (a + b)[0] == a[0] && (a + b)[1..] == a[1..] + b;
      PaintsAppend(a[1..], b);
    }
  }

  /** Commands that are neither fills nor strokes paint nothing. */
  lemma {:induction false} PaintsNone(cmds: seq<Command>)
    requires forall i :: 0 <= i < |cmds| ==> !IsPaint(cmds[i])
    ensures Paints(cmds) == []
    decreases |cmds|
  {
    if cmds != [] {
      PaintsNone(cmds[1..]);
    }
  }

  predicate IsPaint(c: Command)
  {
    c.Fill? || c.FillRect? || c.Stroke? || c.StrokeRect?
  }

  /** A Line strokes once. */
  lemma LinePaints(s: Shape, close: bool, fs: Style, ss: Style)
    requires s.LineShape?
    ensures Paints(Outline(s, close, fs, ss)) == [Stroked(ss)]
  {
    var o := Outline(s, close, fs, ss);
    PaintsNone(o[..3]);
    assert o == o[..3] + [Stroke(ss)];
    PaintsAppend(o[..3], [Stroke(ss)]);
  }

  /** A Rectangle fills, then strokes. */
  lemma RectanglePaints(s: Shape, close: bool, fs: Style, ss: Style)
    requires s.RectShape?
    ensures Paints(Outline(s, close, fs, ss)) == [Filled(fs), Stroked(ss)]
  {
    var o := Outline(s, close, fs, ss);
    assert o == [o[0]] + [o[1]];
    PaintsAppend([o[0]], [o[1]]);
  }

  /** Building a path paints nothing. */
  lemma PathOfPaintsNothing(s: Shape)
    ensures Paints(PathOf(s)) == []
  {
    PaintsNone(PathOf(s));
  }

  /** Closing a path paints nothing; the fill and the stroke after it paint once each. */
  lemma TailPaints(close: bool, fs: Style, ss: Style)
    ensures Paints(Closing(close) + [Fill(fs), Stroke(ss)]) == [Filled(fs), Stroked(ss)]
  {
    var tail := [Fill(fs), Stroke(ss)];
    assert tail == [Fill(fs)] + [Stroke(ss)];
    PaintsAppend([Fill(fs)], [Stroke(ss)]);
    assert Paints(Closing(close)) == [];
    PaintsAppend(Closing(close), tail);
  }

  /** A Circle, an Arc or a Bezier builds a path that paints nothing, then fills and strokes it. */
  lemma PathPaints(s: Shape, close: bool, fs: Style, ss: Style)
    requires !s.LineShape? && !s.RectShape?
    ensures Paints(Outline(s, close, fs, ss)) == [Filled(fs), Stroked(ss)]
  {
    var path, rest := PathOf(s), Closing(close) + [Fill(fs), Stroke(ss)];
    OutlineOfPath(s, close, fs, ss);
    PaintsAppend(path, rest);
    PathOfPaintsNothing(s);
    TailPaints(close, fs, ss);
  }

  /**
   * A Line only strokes; every other shape is filled first and stroked after,
   * each exactly once.
   */
  lemma PaintOrder(s: Shape, close: bool, fs: Style, ss: Style)
    ensures Paints(Outline(s, close, fs, ss))
            == if s.LineShape? then [Stroked(ss)] else [Filled(fs), Stroked(ss)]
  {
    if s.LineShape? {
      LinePaints(s, close, fs, ss);
    } else if s.RectShape? {
      RectanglePaints(s, close, fs, ss);
    } else {
      PathPaints(s, close, fs, ss);
    }
  }

  /** closePath is called exactly when `close` is set, and only by a Circle, Arc or Bezier. */
  lemma CloseRule(s: Shape, close: bool, fs: Style, ss: Style)
    ensures ClosePath in Outline(s, close, fs, ss) <==> close && !s.LineShape? && !s.RectShape?
  {
  }
}
