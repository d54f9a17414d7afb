/**
 * The scene layer of the older revision (canvas_api.js).  There are no
 * transforms: every shape is drawn at its own coordinates.  One defaults
 * object, `Canvas.Palette.defaults`, is shared by every node: its `stroke`
 * object is copied by reference, so all nodes stroke with the same object.
 * The style step reads the stroke colour from `stroke.style`, a property the
 * defaults never set, and writes no shadow slots.
 */
module LegacyCanvasApi {
  import opened JsValues
  import opened Context2D
  import opened Outlines
  import SceneDict
  import Animations
  import CanvasApi

  // ---------------------------------------------------------------------------
  // What a draw does.

  /** Everything a node's draw depends on: its shape, `close`, and the four style slots it writes. */
  datatype NodeView = NodeView(shape: Shape, close: bool, strokeStyle: Paint, fillStyle: Paint,
                               lineWidth: JsValue, lineCap: JsValue)

  /** The style slots after the style step, from the slots `cur` in force before: the shadow slots are kept. */
  function Applied(v: NodeView, cur: Style): (r: Style)
    ensures r.strokeStyle == v.strokeStyle && r.fillStyle == v.fillStyle
    ensures r.lineWidth == v.lineWidth && r.lineCap == v.lineCap
    ensures r.shadowColor == cur.shadowColor && r.shadowOffsetX == cur.shadowOffsetX
    ensures r.shadowOffsetY == cur.shadowOffsetY && r.shadowBlur == cur.shadowBlur
  {
    cur.(strokeStyle := v.strokeStyle, fillStyle := v.fillStyle, lineWidth := v.lineWidth, lineCap := v.lineCap)
  }

  /** The calls a node's draw makes from the slots `cur`: the outline at its own coordinates, one style for all. */
  function Script(v: NodeView, cur: Style): seq<Command>
  {
    Outline(v.shape, v.close, Applied(v, cur), Applied(v, cur))
  }

  /** The calls of several nodes drawn one after the other, starting from the slots `cur`. */
  function Film(vs: seq<NodeView>, cur: Style): seq<Command>
  {
    if vs == [] then [] else Film(vs[..|vs| - 1], cur) + Script(vs[|vs| - 1], cur)
  }

  /** A second style step overrides the whole of the first: only the shadow slots carry over. */
  lemma AppliedTwice(u: NodeView, v: NodeView, cur: Style)
    ensures Applied(v, Applied(u, cur)) == Applied(v, cur)
    ensures Script(v, Applied(u, cur)) == Script(v, cur)
  {
  }

  /** Drawing any number of nodes makes no transform call at all. */
  lemma {:induction false} FilmStill(vs: seq<NodeView>, cur: Style)
    ensures NoTransforms(Film(vs, cur))
  {
    if vs != [] {
      var init, last := Film(vs[..|vs| - 1], cur), Script(vs[|vs| - 1], cur);
      FilmStill(vs[..|vs| - 1], cur);
      OutlineStill(vs[|vs| - 1].shape, vs[|vs| - 1].close, Applied(vs[|vs| - 1], cur), Applied(vs[|vs| - 1], cur));
      forall i | 0 <= i < |init + last| ensures !IsTransform((init + last)[i]) {
        if i < |init| { assert (init + last)[i] == init[i]; } else { assert (init + last)[i] == last[i - |init|]; }
      }
    }
  }

  /** And so leaves the transform where it was. */
  lemma FilmBalanced(vs: seq<NodeView>, cur: Style)
    ensures Net(Film(vs, cur)) == []
  {
    FilmStill(vs, cur);
    NetStill([], Film(vs, cur));
  }

  /** The paint calls of one node: a Line is stroked; every other shape is filled, then stroked, with one style. */
  function PaintsOf(v: NodeView, cur: Style): seq<Painting>
  {
    if v.shape.LineShape? then [Stroked(Applied(v, cur))] else [Filled(Applied(v, cur)), Stroked(Applied(v, cur))]
  }

  function AllPaints(vs: seq<NodeView>, cur: Style): seq<Painting>
  {
    if vs == [] then [] else AllPaints(vs[..|vs| - 1], cur) + PaintsOf(vs[|vs| - 1], cur)
  }

  /** A scene paints node by node, in drawing order, each node as its shape prescribes. */
  lemma {:induction false} FilmPaints(vs: seq<NodeView>, cur: Style)
    ensures Paints(Film(vs, cur)) == AllPaints(vs, cur)
  {
    if vs != [] {
      var v := vs[|vs| - 1];
      FilmPaints(vs[..|vs| - 1], cur);
      PaintsAppend(Film(vs[..|vs| - 1], cur), Script(v, cur));
      PaintOrder(v.shape, v.close, Applied(v, cur), Applied(v, cur));
    }
  }

  /** Drawing one more node appends its calls. */
  lemma FilmStep(vs: seq<NodeView>, i: nat, cur: Style)
    requires i < |vs|
    ensures Film(vs[..i + 1], cur) == Film(vs[..i], cur) + Script(vs[i], cur)
  {
    assert vs[..i + 1][..i] == vs[..i];
  }

  // ---------------------------------------------------------------------------
  // The two revisions side by side.

  /** A command with its style slots blanked: where and what is drawn, not how. */
  function Bare(c: Command): Command
  {
    var blank := Style(Value(Undefined), Value(Undefined), Undefined, Undefined, Undefined, Undefined, Undefined, Undefined);
    match c
    case FillRect(x, y, w, h, _) => FillRect(x, y, w, h, blank)
    case StrokeRect(x, y, w, h, _) => StrokeRect(x, y, w, h, blank)
    case Fill(_) => Fill(blank)
    case Stroke(_) => Stroke(blank)
    case _ => c
  }

  function BareAll(cmds: seq<Command>): (r: seq<Command>)
    ensures |r| == |cmds|
    ensures forall i :: 0 <= i < |cmds| ==> r[i] == Bare(cmds[i])
  {
    if cmds == [] then [] else [Bare(cmds[0])] + BareAll(cmds[1..])
  }

  /** The styles an outline is painted with do not change where it is drawn. */
  lemma BareOutline(s: Shape, close: bool, f1: Style, s1: Style, f2: Style, s2: Style)
    ensures BareAll(Outline(s, close, f1, s1)) == BareAll(Outline(s, close, f2, s2))
  {
    var a, b := Outline(s, close, f1, s1), Outline(s, close, f2, s2);
    assert |a| == |b|;
    forall i | 0 <= i < |a| ensures Bare(a[i]) == Bare(b[i]) { }
  }

  /**
   * With no rotation in effect, the newer revision's calls for a node, placed
   * in the untransformed frame, are this revision's calls for the same shape:
   * the origin and the pivot leave no trace, only the styles differ.
   */
  lemma SameCalls(v: CanvasApi.NodeView, lv: NodeView, cur: Style)
    requires Numeric(v.shape) && v.originX.Num? && v.originY.Num? && ToNumber(v.rotation) == Num(0.0)
    requires lv.shape == v.shape && lv.close == v.close
    ensures Placed(CanvasApi.Script(v)).Some?
    ensures BareAll(Placed(CanvasApi.Script(v)).value) == BareAll(Script(lv, cur))
  {
    var (px, py) := CanvasApi.Pivot(v.shape, v.originX, v.originY);
    CanvasApi.OriginCancels(v);
    BareOutline(v.shape, v.close, MovedStyle(v.style, px.n, py.n), MovedStyle(CanvasApi.StrokeWith(v), px.n, py.n),
                Applied(lv, cur), Applied(lv, cur));
  }

  // ---------------------------------------------------------------------------
  // The shared defaults.

  /** `Canvas.Palette.defaults.stroke`: colour, width and cap; `style` is never assigned. */
  class StrokeDefaults {
    var color: JsValue
    var width: JsValue
    var cap: JsValue
    /** The property the style step reads the stroke colour from. */
    var style: JsValue

    constructor ()
      ensures color == Str("MidnightBlue") && width == Num(3.0) && cap == Str("butt") && style == Undefined
    {
      color, width, cap, style := Str("MidnightBlue"), Num(3.0), Str("butt"), Undefined;
    }
  }

  /** A fill: a colour value, or a Palette Gradient object. */
  datatype FillStyle = Plain(value: JsValue) | Linear(gradient: Gradient)

  /** The Gradient a fill refers to, if any. */
  function Source(f: FillStyle): set<Gradient>
  {
    if f.Linear? then {f.gradient} else {}
  }

  /** `Canvas.Palette.defaults`, the one object every node takes its defaults from. */
  class Defaults {
    var stroke: StrokeDefaults
    var fill: FillStyle
    var close: bool

    constructor ()
      ensures fresh(stroke)
      ensures stroke.color == Str("MidnightBlue") && stroke.width == Num(3.0) && stroke.cap == Str("butt")
      ensures stroke.style == Undefined
      ensures fill == Plain(Str("LightGrey")) && !close
    {
      stroke := new StrokeDefaults();
      fill := Plain(Str("LightGrey"));
      close := false;
    }
  }

  /** A Palette Gradient, laid out from the filled node's (x, y). */
  class Gradient {
    var x1: JsValue
    var y1: JsValue
    var x2: JsValue
    var y2: JsValue
    var stops: seq<Stop>
    /** `_parent`: set by the style code of the node being drawn, and never removed. */
    var parent: Node?

    constructor (x1: JsValue, y1: JsValue, x2: JsValue, y2: JsValue)
      ensures Guard([x1, y1, x2, y2]) ==> this.x1 == x1 && this.y1 == y1 && this.x2 == x2 && this.y2 == y2
      ensures !Guard([x1, y1, x2, y2]) ==>
                this.x1 == Undefined && this.y1 == Undefined && this.x2 == Undefined && this.y2 == Undefined
      ensures stops == [] && parent == null
    {
      this.x1, this.y1, this.x2, this.y2 := Undefined, Undefined, Undefined, Undefined;
      stops := [];
      parent := null;
      new;
      if Guard([x1, y1, x2, y2]) {
        this.x1, this.y1, this.x2, this.y2 := x1, y1, x2, y2;
      }
    }

    method AddStop(offset: JsValue, color: JsValue)
      modifies this`stops
      ensures stops == old(stops) + [Stop(offset, color)]
    {
      stops := stops + [Stop(offset, color)];
    }

    /** The paint this gradient gives a node at (px, py): the end points moved by the node's position. */
    function Painted(px: JsValue, py: JsValue): Paint
      reads this`x1, this`y1, this`x2, this`y2, this`stops
    {
      LinearGradient(Plus(px, x1), Plus(py, y1), Plus(px, x2), Plus(py, y2), stops)
    }

    /**
     * `draw()` for the node `parent`: a linear gradient between the end points
     * offset by the parent's x and y, with the colour stops added in order.
     */
    method Draw(parent: Node) returns (p: Paint)
      ensures p == Painted(parent.x, parent.y)
      ensures p.LinearGradient? && p.stops == stops
    {
      var px, py := parent.x, parent.y;
      var added: seq<Stop> := [];
      var i := 0;
      while i < |stops|
        invariant 0 <= i <= |stops|
        invariant added == stops[..i]
      {
        added := added + [stops[i]];
        i := i + 1;
      }
      p := LinearGradient(Plus(px, x1), Plus(py, y1), Plus(px, x2), Plus(py, y2), added);
    }

    /**
     * The style code's gradient step as written: `_parent` is set, the
     * gradient is drawn, and `delete` is applied to the returned canvas
     * gradient rather than to this one, so the link to the node stays.
     */
    method LinkAndDraw(node: Node) returns (p: Paint)
      modifies this`parent
      ensures p == Painted(node.x, node.y)
      ensures parent == node
    {
      parent := node;
      p := Draw(parent);
    }
  }

  // ---------------------------------------------------------------------------
  // Nodes.

  /**
   * A Palette node.  Properties never assigned read as `Undefined`; `stroke`
   * is absent (null) only until the constructor has run `setDefaults`.
   * `cx1` .. `cy2` are the Bezier's `c_x1` .. `c_y2`.
   */
  class Node {
    const kind: CanvasApi.Kind
    var context: Context?
    var stroke: StrokeDefaults?
    var fill: FillStyle
    var close: bool
    var x1: JsValue
    var y1: JsValue
    var x2: JsValue
    var y2: JsValue
    var x3: JsValue
    var y3: JsValue
    var x: JsValue
    var y: JsValue
    var width: JsValue
    var height: JsValue
    var radius: JsValue
    var cx1: JsValue
    var cy1: JsValue
    var cx2: JsValue
    var cy2: JsValue
    var start: JsValue
    var end: JsValue
    var clockwise: bool

    predicate Styled()
      reads this
    {
      stroke != null
    }

    /** The properties this kind's draw reads its geometry from. */
    function Geometry(): Shape
      reads this
    {
      match kind
      case LineNode => LineShape(x1, y1, x2, y2)
      case RectangleNode => RectShape(x, y, width, height)
      case CircleNode => CircleShape(x, y, radius, start, end, clockwise)
      case ArcNode => ArcShape(x1, y1, x2, y2, x3, y3, radius)
      case BezierNode => BezierShape(x1, y1, x2, y2, cx1, cy1, cx2, cy2)
    }

    /** The fill style the style step gives the context. */
    function FillPaint(): Paint
      reads this, Source(fill)`x1, Source(fill)`y1, Source(fill)`x2, Source(fill)`y2, Source(fill)`stops
    {
      match fill
      case Plain(v) => Value(v)
      case Linear(g) => g.Painted(x, y)
    }

    /** What this node's draw depends on. */
    function View(): NodeView
      requires Styled()
      reads this, stroke, Source(fill)`x1, Source(fill)`y1, Source(fill)`x2, Source(fill)`y2, Source(fill)`stops
    {
      NodeView(Geometry(), close, Value(stroke.style), FillPaint(), stroke.width, stroke.cap)
    }

    constructor Line(defaults: Defaults, x1: JsValue, y1: JsValue, x2: JsValue, y2: JsValue)
      ensures kind == CanvasApi.LineNode && context == null
      ensures Styled() && stroke == defaults.stroke && fill == defaults.fill && close == defaults.close
      ensures Guard([x1, y1, x2, y2]) ==> Geometry() == LineShape(x1, y1, x2, y2)
      ensures !Guard([x1, y1, x2, y2]) ==> Geometry() == LineShape(Undefined, Undefined, Undefined, Undefined)
      ensures x == Undefined && y == Undefined
    {
      kind, context, stroke, fill, close := CanvasApi.LineNode, null, null, Plain(Undefined), false;
      this.x1, this.y1, this.x2, this.y2, this.x3, this.y3 := Undefined, Undefined, Undefined, Undefined, Undefined, Undefined;
      this.x, this.y, this.width, this.height, this.radius := Undefined, Undefined, Undefined, Undefined, Undefined;
      this.cx1, this.cy1, this.cx2, this.cy2 := Undefined, Undefined, Undefined, Undefined;
      start, end, clockwise := Undefined, Undefined, false;
      if Guard([x1, y1, x2, y2]) {
        this.x1, this.y1, this.x2, this.y2 := x1, y1, x2, y2;
      }
      new;
      SetDefaults(defaults);
    }

    constructor Rectangle(defaults: Defaults, x: JsValue, y: JsValue, width: JsValue, height: JsValue)
      ensures kind == CanvasApi.RectangleNode && context == null
      ensures Styled() && stroke == defaults.stroke && fill == defaults.fill && close == defaults.close
      ensures Guard([x, y, width, height]) ==> Geometry() == RectShape(x, y, width, height)
      ensures !Guard([x, y, width, height]) ==> Geometry() == RectShape(Undefined, Undefined, Undefined, Undefined)
    {
      kind, context, stroke, fill, close := CanvasApi.RectangleNode, null, null, Plain(Undefined), false;
      this.x1, this.y1, this.x2, this.y2, this.x3, this.y3 := Undefined, Undefined, Undefined, Undefined, Undefined, Undefined;
      this.x, this.y, this.width, this.height, this.radius := Undefined, Undefined, Undefined, Undefined, Undefined;
      this.cx1, this.cy1, this.cx2, this.cy2 := Undefined, Undefined, Undefined, Undefined;
      start, end, clockwise := Undefined, Undefined, false;
      if Guard([x, y, width, height]) {
        this.x, this.y, this.width, this.height := x, y, width, height;
      }
      new;
      SetDefaults(defaults);
    }

    constructor Circle(defaults: Defaults, x: JsValue, y: JsValue, radius: JsValue)
      ensures kind == CanvasApi.CircleNode && context == null
      ensures Styled() && stroke == defaults.stroke && fill == defaults.fill && close == defaults.close
      ensures Guard([x, y, radius]) ==> Geometry() == CircleShape(x, y, radius, Num(0.0), Num(360.0), true)
      ensures !Guard([x, y, radius]) ==> Geometry() == CircleShape(Undefined, Undefined, Undefined, Num(0.0), Num(360.0), true)
    {
      kind, context, stroke, fill, close := CanvasApi.CircleNode, null, null, Plain(Undefined), false;
      this.x1, this.y1, this.x2, this.y2, this.x3, this.y3 := Undefined, Undefined, Undefined, Undefined, Undefined, Undefined;
      this.x, this.y, this.width, this.height, this.radius := Undefined, Undefined, Undefined, Undefined, Undefined;
      this.cx1, this.cy1, this.cx2, this.cy2 := Undefined, Undefined, Undefined, Undefined;
      start, end, clockwise := Undefined, Undefined, false;
      if Guard([x, y, radius]) {
        this.x, this.y, this.radius := x, y, radius;
      }
      new;
      SetDefaults(defaults);
    }

    constructor Arc(defaults: Defaults, x1: JsValue, y1: JsValue, x2: JsValue, y2: JsValue,
                    x3: JsValue, y3: JsValue, radius: JsValue)
      ensures kind == CanvasApi.ArcNode && context == null
      ensures Styled() && stroke == defaults.stroke && fill == defaults.fill && close == defaults.close
      ensures Guard([x1, y1, x2, y2, x3, y3, radius]) ==> Geometry() == ArcShape(x1, y1, x2, y2, x3, y3, radius)
      ensures !Guard([x1, y1, x2, y2, x3, y3, radius]) ==>
                Geometry() == ArcShape(Undefined, Undefined, Undefined, Undefined, Undefined, Undefined, Undefined)
      ensures x == Undefined && y == Undefined
    {
      kind, context, stroke, fill, close := CanvasApi.ArcNode, null, null, Plain(Undefined), false;
      this.x1, this.y1, this.x2, this.y2, this.x3, this.y3 := Undefined, Undefined, Undefined, Undefined, Undefined, Undefined;
      this.x, this.y, this.width, this.height, this.radius := Undefined, Undefined, Undefined, Undefined, Undefined;
      this.cx1, this.cy1, this.cx2, this.cy2 := Undefined, Undefined, Undefined, Undefined;
      start, end, clockwise := Undefined, Undefined, false;
      if Guard([x1, y1, x2, y2, x3, y3, radius]) {
        this.x1, this.y1, this.x2, this.y2, this.x3, this.y3, this.radius := x1, y1, x2, y2, x3, y3, radius;
      }
      new;
      ghost var g := Geometry();
      SetDefaults(defaults);
      assert Geometry() == g;
    }

    constructor Bezier(defaults: Defaults, x1: JsValue, y1: JsValue, x2: JsValue, y2: JsValue,
                       cx1: JsValue, cy1: JsValue, cx2: JsValue, cy2: JsValue)
      ensures kind == CanvasApi.BezierNode && context == null
      ensures Styled() && stroke == defaults.stroke && fill == defaults.fill && close == defaults.close
      ensures Guard([x1, y1, x2, y2]) ==> Geometry() == BezierShape(x1, y1, x2, y2, cx1, cy1, cx2, cy2)
      ensures !Guard([x1, y1, x2, y2]) ==>
                Geometry() == BezierShape(Undefined, Undefined, Undefined, Undefined, Undefined, Undefined, Undefined, Undefined)
      ensures x == Undefined && y == Undefined
    {
      kind, context, stroke, fill, close := CanvasApi.BezierNode, null, null, Plain(Undefined), false;
      this.x1, this.y1, this.x2, this.y2, this.x3, this.y3 := Undefined, Undefined, Undefined, Undefined, Undefined, Undefined;
      this.x, this.y, this.width, this.height, this.radius := Undefined, Undefined, Undefined, Undefined, Undefined;
      this.cx1, this.cy1, this.cx2, this.cy2 := Undefined, Undefined, Undefined, Undefined;
      start, end, clockwise := Undefined, Undefined, false;
      if Guard([x1, y1, x2, y2]) {
        this.x1, this.y1, this.x2, this.y2, this.cx1, this.cy1, this.cx2, this.cy2 := x1, y1, x2, y2, cx1, cy1, cx2, cy2;
      }
      new;
      ghost var g := Geometry();
      SetDefaults(defaults);
      assert Geometry() == g;
    }

    /**
     * `setDefaults`: every property of the shared defaults is copied onto the
     * node, the stroke object by reference; a Circle also gets start 0, end
     * 360 and clockwise true.
     */
    method SetDefaults(defaults: Defaults)
      modifies this`stroke, this`fill, this`close, this`start, this`end, this`clockwise
      ensures Styled() && stroke == defaults.stroke && fill == defaults.fill && close == defaults.close
      ensures kind == CanvasApi.CircleNode ==> start == Num(0.0) && end == Num(360.0) && clockwise
      ensures kind != CanvasApi.CircleNode ==> start == old(start) && end == old(end) && clockwise == old(clockwise)
    {
      stroke, fill, close := defaults.stroke, defaults.fill, defaults.close;
      if kind == CanvasApi.CircleNode {
        start, end, clockwise := Num(0.0), Num(360.0), true;
      }
    }

    /**
     * `setStyle`: strokeStyle from `stroke.style`, lineWidth, the fill (a
     * Gradient is linked to this node and drawn for it first), lineCap.  No
     * shadow slot is written.  As written, the `delete` that follows is
     * applied to the returned canvas gradient, so the Gradient stays linked
     * to this node (`Gradient.LinkAndDraw`).
     */
    method SetStyle()
      requires Styled() && context != null
      modifies context`strokeStyle, context`lineWidth, context`fillStyle, context`lineCap, Source(fill)`parent
      ensures context.Current() == Applied(View(), old(context.Current()))
      ensures View() == old(View())
      ensures fill.Linear? ==> fill.gradient.parent == this
    {
      context.strokeStyle := Value(stroke.style);
      context.lineWidth := stroke.width;
      var f: Paint;
      match fill {
        case Plain(v) =>
          f := Value(v);
        case Linear(g) =>
          f := g.LinkAndDraw(this);
      }
      context.fillStyle := f;
      context.lineCap := stroke.cap;
    }

    /**
     * `setStyle` as its `delete` evidently intends: the same slots, after which
     * the Gradient's link to this node is removed again.
     */
    method SetStyleIntended()
      requires Styled() && context != null
      modifies context`strokeStyle, context`lineWidth, context`fillStyle, context`lineCap, Source(fill)`parent
      ensures context.Current() == Applied(View(), old(context.Current()))
      ensures View() == old(View())
      ensures fill.Linear? ==> fill.gradient.parent == null
    {
      SetStyle();
      if fill.Linear? {
        fill.gradient.parent := null;
      }
    }

    /** A Line's segment from (x1, y1) to (x2, y2), stroked. */
    method LineOutline()
      requires kind == CanvasApi.LineNode && context != null
      modifies context`log
      ensures context.log == old(context.log) + Outline(Geometry(), close, context.Current(), context.Current())
    {
      context.BeginPath();
      context.MoveTo(x1, y1);
      context.LineTo(x2, y2);
      context.Stroke();
    }

    /** A Rectangle at (x, y), filled, then stroked. */
    method RectangleOutline()
      requires kind == CanvasApi.RectangleNode && context != null
      modifies context`log
      ensures context.log == old(context.log) + Outline(Geometry(), close, context.Current(), context.Current())
    {
      context.FillRect(x, y, width, height);
      context.StrokeRect(x, y, width, height);
    }

    /** A Circle's arc about (x, y), closed when `close` is set, filled, stroked. */
    method CircleOutline()
      requires kind == CanvasApi.CircleNode && context != null
      modifies context`log
      ensures context.log == old(context.log) + Outline(Geometry(), close, context.Current(), context.Current())
    {
      ghost var st, log0 := context.Current(), context.log;
      context.BeginPath();
      context.Arc(x, y, radius, start, ToNumber(end), clockwise);
      ghost var path := [BeginPath, Command.Arc(x, y, radius, start, ToNumber(end), clockwise)];
      assert context.log == log0 + path;
      if close {
        context.ClosePath();
      }
      assert context.log == log0 + path + Closing(close);
      context.Fill();
      context.Stroke();
      ghost var g := CircleShape(x, y, radius, start, end, clockwise);
      assert Outline(g, close, st, st) == path + Closing(close) + [Fill(st), Stroke(st)];
      CanvasApi.Regroup(log0, path, Closing(close), [Fill(st), Stroke(st)]);
    }

    /** An Arc's path through its three points, closed when `close` is set, filled, stroked. */
    method ArcOutline()
      requires kind == CanvasApi.ArcNode && context != null
      modifies context`log
      ensures context.log == old(context.log) + Outline(Geometry(), close, context.Current(), context.Current())
    {
      ghost var st, log0 := context.Current(), context.log;
      context.BeginPath();
      context.MoveTo(x1, y1);
      context.ArcTo(x2, y2, x3, y3, radius);
      context.LineTo(x3, y3);
      ghost var path := [BeginPath, MoveTo(x1, y1), ArcTo(x2, y2, x3, y3, radius), LineTo(x3, y3)];
      assert context.log == log0 + path;
      if close {
        context.ClosePath();
      }
      assert context.log == log0 + path + Closing(close);
      context.Fill();
      context.Stroke();
      ghost var g := ArcShape(x1, y1, x2, y2, x3, y3, radius);
      assert Outline(g, close, st, st) == path + Closing(close) + [Fill(st), Stroke(st)];
      CanvasApi.Regroup(log0, path, Closing(close), [Fill(st), Stroke(st)]);
    }

    /** A Bezier's curve from (x1, y1) to (x2, y2), closed when `close` is set, filled, stroked. */
    method BezierOutline()
      requires kind == CanvasApi.BezierNode && context != null
      modifies context`log
      ensures context.log == old(context.log) + Outline(Geometry(), close, context.Current(), context.Current())
    {
      ghost var st, log0 := context.Current(), context.log;
      context.BeginPath();
      context.MoveTo(x1, y1);
      context.BezierCurveTo(cx1, cy1, cx2, cy2, x2, y2);
      ghost var path := [BeginPath, MoveTo(x1, y1), BezierTo(cx1, cy1, cx2, cy2, x2, y2)];
      assert context.log == log0 + path;
      if close {
        context.ClosePath();
      }
      assert context.log == log0 + path + Closing(close);
      context.Fill();
      context.Stroke();
      ghost var g := BezierShape(x1, y1, x2, y2, cx1, cy1, cx2, cy2);
      assert Outline(g, close, st, st) == path + Closing(close) + [Fill(st), Stroke(st)];
      CanvasApi.Regroup(log0, path, Closing(close), [Fill(st), Stroke(st)]);
    }

    /** `draw` of a Line: set the style, stroke the segment from (x1, y1) to (x2, y2). */
    method DrawLine()
      requires kind == CanvasApi.LineNode && Styled() && context != null
      modifies context, Source(fill)`parent
      ensures context.log == old(context.log) + Script(old(View()), old(context.Current()))
      ensures context.Current() == Applied(old(View()), old(context.Current()))
      ensures View() == old(View())
      ensures fill.Linear? ==> fill.gradient.parent == this
    {
      ghost var v, cur := View(), context.Current();
      SetStyle();
      assert context.Current() == Applied(v, cur);
      LineOutline();
      assert Geometry() == v.shape && close == v.close;
    }

    /** `draw` of a Rectangle: set the style, fill the rect at (x, y), then stroke it. */
    method DrawRectangle()
      requires kind == CanvasApi.RectangleNode && Styled() && context != null
      modifies context, Source(fill)`parent
      ensures context.log == old(context.log) + Script(old(View()), old(context.Current()))
      ensures context.Current() == Applied(old(View()), old(context.Current()))
      ensures View() == old(View())
      ensures fill.Linear? ==> fill.gradient.parent == this
    {
      ghost var v, cur := View(), context.Current();
      SetStyle();
      assert context.Current() == Applied(v, cur);
      RectangleOutline();
      assert Geometry() == v.shape && close == v.close;
    }

    /** `draw` of a Circle: set the style, the arc about (x, y), closed when `close` is set, filled, stroked. */
    method DrawCircle()
      requires kind == CanvasApi.CircleNode && Styled() && context != null
      modifies context, Source(fill)`parent
      ensures context.log == old(context.log) + Script(old(View()), old(context.Current()))
      ensures context.Current() == Applied(old(View()), old(context.Current()))
      ensures View() == old(View())
      ensures fill.Linear? ==> fill.gradient.parent == this
    {
      ghost var v, cur := View(), context.Current();
      SetStyle();
      assert context.Current() == Applied(v, cur);
      CircleOutline();
      assert Geometry() == v.shape && close == v.close;
    }

    /** `draw` of an Arc: set the style, the path through the three points, closed when `close` is set, filled, stroked. */
    method DrawArc()
      requires kind == CanvasApi.ArcNode && Styled() && context != null
      modifies context, Source(fill)`parent
      ensures context.log == old(context.log) + Script(old(View()), old(context.Current()))
      ensures context.Current() == Applied(old(View()), old(context.Current()))
      ensures View() == old(View())
      ensures fill.Linear? ==> fill.gradient.parent == this
    {
      ghost var v, cur := View(), context.Current();
      SetStyle();
      assert context.Current() == Applied(v, cur);
      ArcOutline();
      assert Geometry() == v.shape && close == v.close;
    }

    /** `draw` of a Bezier: set the style, the curve from (x1, y1) to (x2, y2), closed when `close` is set, filled, stroked. */
    method DrawBezier()
      requires kind == CanvasApi.BezierNode && Styled() && context != null
      modifies context, Source(fill)`parent
      ensures context.log == old(context.log) + Script(old(View()), old(context.Current()))
      ensures context.Current() == Applied(old(View()), old(context.Current()))
      ensures View() == old(View())
      ensures fill.Linear? ==> fill.gradient.parent == this
    {
      ghost var v, cur := View(), context.Current();
      SetStyle();
      assert context.Current() == Applied(v, cur);
      BezierOutline();
      assert Geometry() == v.shape && close == v.close;
    }

    /** `draw()`, dispatched on the node's prototype. */
    method Draw()
      requires Styled() && context != null
      modifies context, Source(fill)`parent
      ensures context.log == old(context.log) + Script(old(View()), old(context.Current()))
      ensures context.Current() == Applied(old(View()), old(context.Current()))
      ensures View() == old(View())
      ensures fill.Linear? ==> fill.gradient.parent == this
    {
      match kind
      case LineNode => DrawLine();
      case RectangleNode => DrawRectangle();
      case CircleNode => DrawCircle();
      case ArcNode => DrawArc();
      case BezierNode => DrawBezier();
    }
  }

  /** Nodes built from the same defaults share one stroke object, so they stroke with the same colour, width and cap. */
  lemma SharedStroke(a: Node, b: Node)
    requires a.Styled() && b.Styled() && a.stroke == b.stroke
    ensures a.View().strokeStyle == b.View().strokeStyle
    ensures a.View().lineWidth == b.View().lineWidth && a.View().lineCap == b.View().lineCap
  {
  }

  /** The defaults' stroke colour never reaches the context: the stroke style is `stroke.style`, unset by the defaults. */
  lemma StrokeColourUnused(n: Node)
    requires n.Styled() && n.stroke.style == Undefined
    ensures n.View().strokeStyle == Value(Undefined)
    ensures n.View().strokeStyle != Value(n.stroke.color) || n.stroke.color == Undefined
  {
  }

  /**
   * A node whose x and y are undefined, as a Line, an Arc and a Bezier always
   * are, and that is filled with a Gradient, is given a linear gradient whose
   * four end point coordinates are all NaN, whatever the Gradient's own.
   */
  lemma GradientUnplaced(n: Node)
    requires n.Styled() && n.fill.Linear?
    requires n.x == Undefined && n.y == Undefined
    ensures n.View().fillStyle == n.fill.gradient.Painted(n.x, n.y)
    ensures var p := n.View().fillStyle;
            p.LinearGradient? && p.x0 == NaN && p.y0 == NaN && p.x1 == NaN && p.y1 == NaN
  {
  }

  // ---------------------------------------------------------------------------
  // Several nodes.

  /** The gradients filling some of `ns`. */
  function Fills(ns: seq<Node>): set<Gradient>
    reads ns
  {
    set n, g | n in ns && g in Source(n.fill) :: g
  }

  /** The views of `ns`, in order. */
  function ViewsOf(ns: seq<Node>): (r: seq<NodeView>)
    requires forall n :: n in ns ==> n.Styled()
    reads ns, set n | n in ns :: n.stroke, Fills(ns)`x1, Fills(ns)`y1, Fills(ns)`x2, Fills(ns)`y2, Fills(ns)`stops
    ensures |r| == |ns|
    ensures forall i :: 0 <= i < |ns| ==> r[i] == ns[i].View()
  {
    ViewsUpTo(ns, |ns|)
  }

  /** The views of the first `k` of `ns`. */
  function ViewsUpTo(ns: seq<Node>, k: nat): (r: seq<NodeView>)
    requires k <= |ns| && forall n :: n in ns ==> n.Styled()
    reads ns, set n | n in ns :: n.stroke, Fills(ns)`x1, Fills(ns)`y1, Fills(ns)`x2, Fills(ns)`y2, Fills(ns)`stops
    ensures |r| == k
    ensures forall i :: 0 <= i < k ==> r[i] == ns[i].View()
  {
    if k == 0 then [] else ViewsUpTo(ns, k - 1) + [ns[k - 1].View()]
  }

  /** A node whose properties, stroke object and gradient are untouched looks the same. */
  twostate lemma ViewKept(n: Node)
    requires old(n.Styled())
    requires unchanged(n) && unchanged(n.stroke) && unchanged(Source(n.fill)`x1, Source(n.fill)`y1, Source(n.fill)`x2, Source(n.fill)`y2, Source(n.fill)`stops)
    ensures n.Styled() && n.View() == old(n.View())
  {
  }

  /** The same for several nodes. */
  twostate lemma ViewsKept(ns: seq<Node>)
    requires forall n :: n in ns ==> old(n.Styled()) && unchanged(n) && unchanged(n.stroke) && unchanged(Source(n.fill)`x1, Source(n.fill)`y1, Source(n.fill)`x2, Source(n.fill)`y2, Source(n.fill)`stops)
    ensures forall n :: n in ns ==> n.Styled()
    ensures ViewsOf(ns) == old(ViewsOf(ns))
  {
    forall i | 0 <= i < |ns|
      ensures ns[i].View() == old(ns[i].View())
    {
      ViewKept(ns[i]);
    }
  }

  /** The fills of `nodes`, in order. */
  function FillsOf(nodes: seq<Node>): (r: seq<FillStyle>)
    reads nodes
    ensures |r| == |nodes| && forall k :: 0 <= k < |nodes| ==> r[k] == nodes[k].fill
  {
    if nodes == [] then [] else FillsOf(nodes[..|nodes| - 1]) + [nodes[|nodes| - 1].fill]
  }

  /** `fills[i]` is a Gradient that none of the fills after it and before `fills[n]` is. */
  predicate LastFilled(fills: seq<FillStyle>, i: nat, n: nat)
    requires i < n <= |fills|
  {
    fills[i].Linear? && forall j :: i < j < n ==> fills[j] != fills[i]
  }

  /** A fill that is the last of its Gradient before `fills[n + 1]` is so before `fills[n]`, and differs from `fills[n]`. */
  lemma LastShrinks(fills: seq<FillStyle>, i: nat, n: nat)
    requires i < n < |fills| && LastFilled(fills, i, n + 1)
    ensures LastFilled(fills, i, n) && fills[n] != fills[i]
  {
  }

  /**
   * The body of the scene loop, `nodes[i].draw()`: the node's script is
   * appended from the style the context had, and the Gradients that were left
   * linked to the last of the earlier nodes filled with them stay so, now
   * counting `nodes[i]`.
   */
  method DrawNext(nodes: seq<Node>, i: nat, ghost fills: seq<FillStyle>, ghost vs: seq<NodeView>, ghost cur: Style)
    requires i < |nodes| == |fills| == |vs| && fills[i] == nodes[i].fill
    requires nodes[i].Styled() && nodes[i].context != null && nodes[i].View() == vs[i]
    requires i == 0 ==> nodes[i].context.Current() == cur
    requires i > 0 ==> nodes[i].context.Current() == Applied(vs[i - 1], cur)
    modifies nodes[i].context, Source(fills[i])`parent
    ensures nodes[i].context.log == old(nodes[i].context.log) + Script(vs[i], cur)
    ensures nodes[i].context.Current() == Applied(vs[i], cur)
    ensures (forall k {:trigger LastFilled(fills, k, i)} :: 0 <= k < i && LastFilled(fills, k, i) ==>
               old(fills[k].gradient.parent) == nodes[k]) ==>
            forall k {:trigger LastFilled(fills, k, i + 1)} :: 0 <= k < i + 1 && LastFilled(fills, k, i + 1) ==>
               fills[k].gradient.parent == nodes[k]
  {
    ghost var before := nodes[i].context.Current();
    nodes[i].Draw();
    assert Script(vs[i], before) == Script(vs[i], cur) by {
      if i > 0 { AppliedTwice(vs[i - 1], vs[i], cur); }
    }
    assert Applied(vs[i], before) == Applied(vs[i], cur) by {
      if i > 0 { AppliedTwice(vs[i - 1], vs[i], cur); }
    }
    forall k | 0 <= k < i && LastFilled(fills, k, i + 1)
      ensures LastFilled(fills, k, i) && fills[k] != fills[i]
    {
      LastShrinks(fills, k, i);
    }
  }

  /**
   * `for (var object in this.scene) this.scene[object].draw();`, the nodes
   * taken in visiting order.  Each Gradient is left linked to the last node
   * drawn with it.
   */
  method DrawAll(context: Context, nodes: seq<Node>)
    requires forall n :: n in nodes ==> n.Styled() && n.context == context
    modifies context, Fills(nodes)`parent
    ensures context.log == old(context.log) + Film(old(ViewsOf(nodes)), old(context.Current()))
    ensures forall k :: 0 <= k < |nodes| && LastFilled(old(FillsOf(nodes)), k, |nodes|) ==> nodes[k].fill.gradient.parent == nodes[k]
  {
    ghost var vs, log0, cur, fills := ViewsOf(nodes), context.log, context.Current(), FillsOf(nodes);
    var i := 0;
    while i < |nodes|
      invariant 0 <= i <= |nodes|
      invariant context.log == log0 + Film(vs[..i], cur)
      invariant i == 0 ==> context.Current() == cur
      invariant i > 0 ==> context.Current() == Applied(vs[i - 1], cur)
      invariant forall k {:trigger LastFilled(fills, k, i)} :: 0 <= k < i && LastFilled(fills, k, i) ==> fills[k].gradient.parent == nodes[k]
    {
      ViewKept(nodes[i]);
      DrawNext(nodes, i, fills, vs, cur);
      FilmStep(vs, i, cur);
      CanvasApi.Associative(log0, Film(vs[..i], cur), Script(vs[i], cur));
      i := i + 1;
    }
    assert vs[..|nodes|] == vs;
  }

  /**
   * A Drawing: a canvas of the given size and its 2D context, an animation,
   * and the scene, a dictionary from instance names to nodes.
   */
  class Drawing {
    const name: JsValue
    const width: JsValue
    const height: JsValue
    /** The background colour; left unassigned when the argument is undefined or null. */
    const color: JsValue
    const context: Context
    const animation: Animations.Animation
    var scene: SceneDict.Dict<Node>

    /** The nodes in the order `for ... in` visits their names. */
    function Nodes(): seq<Node>
      requires SceneDict.Valid(scene)
      reads this
    {
      SceneDict.Ordered(scene)
    }

    /** The scene is a well-formed dictionary whose nodes are styled and draw on this drawing's context. */
    ghost predicate Valid()
      reads this, set n | n in scene.entries.Values :: n
    {
      && SceneDict.Valid(scene)
      && forall n :: n in scene.entries.Values ==> n.context == context && n.Styled()
    }

    /** What the scene's nodes look like, in drawing order. */
    function Views(): seq<NodeView>
      requires Valid()
      reads this, set n | n in scene.entries.Values :: n, Nodes(), set n | n in Nodes() :: n.stroke, Fills(Nodes())`x1, Fills(Nodes())`y1, Fills(Nodes())`x2, Fills(Nodes())`y2, Fills(Nodes())`stops
    {
      ViewsOf(Nodes())
    }

    /**
     * `new Canvas.Drawing(name, width, height, color)`: the HTML canvas
     * element is replaced by a fresh context; the host's interval table is
     * `timers`.
     */
    constructor (name: JsValue, width: JsValue, height: JsValue, color: JsValue, timers: Animations.Timers)
      requires timers.Valid()
      ensures this.name == name && this.width == width && this.height == height
      ensures !Nullish(color) ==> this.color == color
      ensures Nullish(color) ==> this.color == Undefined
      ensures fresh(context) && context.log == []
      ensures fresh(animation) && animation.Valid() && animation.Running() == {}
      ensures animation.timers == timers && animation.framerate == Num(12.0) && animation.interval == None
      ensures scene.keys == [] && Valid()
    {
      this.name, this.width, this.height := name, width, height;
      this.color := if color != Undefined && color != Null then color else Undefined;
      context := new Context();
      animation := new Animations.Animation(timers);
      scene := SceneDict.Empty();
    }

    /** `add(name, obj)`: stores the node under `name` and points it at this drawing's context; the node is not named. */
    method Add(name: string, obj: Node)
      requires SceneDict.Valid(scene)
      modifies this`scene, obj`context
      ensures scene == SceneDict.Put(old(scene), name, obj)
      ensures obj.context == context
      ensures old(Valid()) && obj.Styled() ==> Valid()
    {
      scene := SceneDict.Put(scene, name, obj);
      obj.context := context;
    }

    /** `remove(name)`: `delete this.scene[name]`. */
    method Remove(name: string)
      requires SceneDict.Valid(scene)
      modifies this`scene
      ensures scene == SceneDict.Delete(old(scene), name)
      ensures old(Valid()) ==> Valid()
    {
      scene := SceneDict.Delete(scene, name);
    }

    /** Every node of a valid drawing, in drawing order, is styled and draws on its context. */
    lemma NodesStyled()
      requires Valid()
      ensures forall n :: n in Nodes() ==> n.context == context && n.Styled()
    {
      forall n | n in Nodes()
        ensures n.context == context && n.Styled()
      {
        var j :| 0 <= j < |Nodes()| && Nodes()[j] == n;
        assert n in scene.entries.Values;
      }
    }

    /** `draw()`: clears the canvas, then draws every node in the order their names were added. */
    method Draw()
      requires Valid()
      modifies context, Fills(Nodes())`parent
      ensures context.log == old(context.log) + [ClearRect(Num(0.0), Num(0.0), width, height)]
                             + Film(old(Views()), old(context.Current()))
      ensures forall k :: 0 <= k < |Nodes()| && LastFilled(old(FillsOf(Nodes())), k, |Nodes()|) ==> Nodes()[k].fill.gradient.parent == Nodes()[k]
    {
      ghost var fills := FillsOf(Nodes());
      context.ClearRect(Num(0.0), Num(0.0), width, height);
      var nodes := SceneDict.Ordered(scene);
      NodesStyled();
      ViewsKept(nodes);
      assert FillsOf(nodes) == fills;
      DrawAll(context, nodes);
    }
  }
}
