/**
 * The scene layer of the newer revision (src/canvas_api.js).  Every Palette
 * node gets its own fresh default objects; it is drawn about a pivot (its
 * anchor moved by its origin): translate to the pivot, rotate, draw the
 * outline at coordinates relative to the pivot, undo the rotation and the
 * translation.  The node's shadow is applied to the fill, and hidden from the
 * stroke when the fill is not "transparent".
 */
module CanvasApi {
  import opened JsValues
  import opened Context2D
  import opened Outlines
  import SceneDict
  import Animations

  // ---------------------------------------------------------------------------
  // Geometry relative to the pivot.

  /**
   * The natural anchor the pivot is measured from: a Line's first point, a
   * Rectangle's centre, a Circle's centre, the midpoint of an Arc's first and
   * last points, the midpoint of a Bezier's end points.
   */
  function Anchor(s: Shape): (JsValue, JsValue)
  {
    match s
    case LineShape(x1, y1, _, _) => (x1, y1)
    case RectShape(x, y, w, h) => (Plus(x, Half(w)), Plus(y, Half(h)))
    case CircleShape(x, y, _, _, _, _) => (x, y)
    case ArcShape(x1, y1, _, _, x3, y3, _) => (Half(Plus(x1, x3)), Half(Plus(y1, y3)))
    case BezierShape(x1, y1, x2, y2, _, _, _, _) => (Half(Plus(x1, x2)), Half(Plus(y1, y2)))
  }

  /** The point the context is translated to: the anchor moved by the origin. */
  function Pivot(s: Shape, ox: JsValue, oy: JsValue): (JsValue, JsValue)
  {
    (Plus(Anchor(s).0, ox), Plus(Anchor(s).1, oy))
  }

  /** The shape as each draw method writes it, in coordinates relative to the pivot. */
  function Local(s: Shape, ox: JsValue, oy: JsValue): Shape
  {
    var (px, py) := Pivot(s, ox, oy);
    match s
    case LineShape(x1, y1, x2, y2) =>
      LineShape(Neg(ox), Neg(oy), Minus(Minus(x2, x1), ox), Minus(Minus(y2, y1), oy))
    case RectShape(x, y, w, h) =>
      RectShape(Neg(Plus(Half(w), ox)), Neg(Plus(Half(h), oy)), w, h)
    case CircleShape(x, y, r, start, end, cw) =>
      CircleShape(Neg(ox), Neg(oy), r, start, end, cw)
    case ArcShape(x1, y1, x2, y2, x3, y3, r) =>
      ArcShape(Minus(x1, px), Minus(y1, py), Minus(x2, px), Minus(y2, py), Minus(x3, px), Minus(y3, py), r)
    case BezierShape(x1, y1, x2, y2, cx1, cy1, cx2, cy2) =>
      BezierShape(Minus(x1, px), Minus(y1, py), Minus(x2, px), Minus(y2, py),
                  Minus(cx1, px), Minus(cy1, py), Minus(cx2, px), Minus(cy2, py))
  }

  /** A gradient's end points relative to the origin of the node it fills. */
  function Relative(x1: JsValue, y1: JsValue, x2: JsValue, y2: JsValue, stops: seq<Stop>, ox: JsValue, oy: JsValue): Paint
  {
    LinearGradient(Minus(x1, ox), Minus(y1, oy), Minus(x2, ox), Minus(y2, oy), stops)
  }

  /** Everything a node's draw depends on, read off the node and its default objects. */
  datatype NodeView = NodeView(shape: Shape, close: bool, rotation: JsValue,
                               originX: JsValue, originY: JsValue, style: Style, fillOpaque: bool)

  /** The transform calls made before the outline. */
  function Lead(v: NodeView): seq<Command>
  {
    var (px, py) := Pivot(v.shape, v.originX, v.originY);
    [Translate(px, py), Rotate(v.rotation)]
  }

  /** The style the stroke is made with: the shadow is hidden unless the node is a Line or its fill is "transparent". */
  function StrokeWith(v: NodeView): Style
  {
    if v.shape.LineShape? || !v.fillOpaque then v.style else v.style.(shadowColor := Str("transparent"))
  }

  /** The calls a node's draw makes after setting the style. */
  function Script(v: NodeView): seq<Command>
  {
    Lead(v) + Outline(Local(v.shape, v.originX, v.originY), v.close, v.style, StrokeWith(v)) + Undoing(Lead(v))
  }

  /** The calls of several nodes drawn one after the other. */
  function Film(vs: seq<NodeView>): seq<Command>
  {
    if vs == [] then [] else Film(vs[..|vs| - 1]) + Script(vs[|vs| - 1])
  }

  // ---------------------------------------------------------------------------
  // What a draw does.

  /** A node's draw leaves the transform as it found it. */
  lemma ScriptBalanced(v: NodeView)
    ensures Net(Script(v)) == []
  {
    OutlineStill(Local(v.shape, v.originX, v.originY), v.close, v.style, StrokeWith(v));
    Balanced(Lead(v), Outline(Local(v.shape, v.originX, v.originY), v.close, v.style, StrokeWith(v)));
  }

  /** Drawing any number of nodes leaves the transform as it found it. */
  lemma {:induction false} FilmBalanced(vs: seq<NodeView>)
    ensures Net(Film(vs)) == []
  {
    if vs != [] {
      var init := vs[..|vs| - 1];
      FilmBalanced(init);
      NetAppend([], Film(init), Script(vs[|vs| - 1]));
      ScriptBalanced(vs[|vs| - 1]);
    }
  }

  /** Moving the relative shape back by the pivot gives the shape itself, whatever the origin. */
  lemma LocalShifted(s: Shape, ox: JsValue, oy: JsValue)
    requires Numeric(s) && ox.Num? && oy.Num?
    ensures Pivot(s, ox, oy).0.Num? && Pivot(s, ox, oy).1.Num?
    ensures Shifted(Local(s, ox, oy), Pivot(s, ox, oy).0.n, Pivot(s, ox, oy).1.n) == s
  {
  }

  /**
   * The origin only moves the pivot: with no rotation in effect and numeric
   * coordinates, the calls land exactly where the older revision draws the
   * same shape, and only a gradient's paint is laid out relative to the pivot.
   */
  lemma OriginCancels(v: NodeView)
    requires Numeric(v.shape) && v.originX.Num? && v.originY.Num? && ToNumber(v.rotation) == Num(0.0)
    ensures var (px, py) := Pivot(v.shape, v.originX, v.originY);
            && px.Num? && py.Num?
            && Placed(Script(v))
               == Some(Outline(v.shape, v.close, MovedStyle(v.style, px.n, py.n), MovedStyle(StrokeWith(v), px.n, py.n)))
  {
    var (px, py) := Pivot(v.shape, v.originX, v.originY);
    var local := Local(v.shape, v.originX, v.originY);
    LocalShifted(v.shape, v.originX, v.originY);
    OutlineStill(local, v.close, v.style, StrokeWith(v));
    PlacedPivot(px, py, v.rotation, Outline(local, v.close, v.style, StrokeWith(v)));
    MovedOutline(local, v.close, v.style, StrokeWith(v), px.n, py.n);
  }

  /** A gradient fill is laid out from the node's anchor: the origin cancels out of it. */
  lemma GradientFollowsAnchor(s: Shape, x1: JsValue, y1: JsValue, x2: JsValue, y2: JsValue, stops: seq<Stop>,
                              ox: JsValue, oy: JsValue)
    requires Numeric(s) && ox.Num? && oy.Num? && x1.Num? && y1.Num? && x2.Num? && y2.Num?
    ensures var (px, py) := Pivot(s, ox, oy);
            var (ax, ay) := Anchor(s);
            && px.Num? && py.Num?
            && MovedPaint(Relative(x1, y1, x2, y2, stops, ox, oy), px.n, py.n)
               == LinearGradient(Plus(x1, ax), Plus(y1, ay), Plus(x2, ax), Plus(y2, ay), stops)
  {
  }

  /**
   * A Line is only stroked, with the node's style.  Every other node is filled
   * with its style, then stroked; the stroke casts the node's shadow only when
   * the fill is "transparent".
   */
  lemma ScriptPaints(v: NodeView)
    ensures Paints(Script(v))
            == if v.shape.LineShape? then [Stroked(v.style)] else [Filled(v.style), Stroked(StrokeWith(v))]
    ensures !v.shape.LineShape? ==>
              (StrokeWith(v).shadowColor == Str("transparent") <==> v.fillOpaque || v.style.shadowColor == Str("transparent"))
  {
    var o := Outline(Local(v.shape, v.originX, v.originY), v.close, v.style, StrokeWith(v));
    PaintsNone(Lead(v));
    PaintsNone(Undoing(Lead(v)));
    PaintOrder(Local(v.shape, v.originX, v.originY), v.close, v.style, StrokeWith(v));
    PaintsAppend(Lead(v), o);
    PaintsAppend(Lead(v) + o, Undoing(Lead(v)));
  }

  /** The transform calls after the outline: the rotation undone, then the translation. */
  lemma TrailOf(v: NodeView)
    ensures var (px, py) := Pivot(v.shape, v.originX, v.originY);
            Undoing(Lead(v)) == [Rotate(Neg(v.rotation)), Translate(Neg(px), Neg(py))]
  {
    var (px, py) := Pivot(v.shape, v.originX, v.originY);
    UndoingPair(Translate(px, py), Rotate(v.rotation));
  }

  /** A Line's outline about its pivot, call by call. */
  lemma LineOutlineCalls(s: Shape, ox: JsValue, oy: JsValue, close: bool, fs: Style, ss: Style)
    requires s.LineShape?
    ensures Outline(Local(s, ox, oy), close, fs, ss)
            == [BeginPath, MoveTo(Neg(ox), Neg(oy)),
                LineTo(Minus(Minus(s.x2, s.x1), ox), Minus(Minus(s.y2, s.y1), oy)), Stroke(ss)]
  {
  }

  /** A Rectangle's outline about its pivot (its centre moved by the origin), call by call. */
  lemma RectangleOutlineCalls(s: Shape, ox: JsValue, oy: JsValue, close: bool, fs: Style, ss: Style)
    requires s.RectShape?
    ensures var (lx, ly) := (Neg(Plus(Half(s.width), ox)), Neg(Plus(Half(s.height), oy)));
            Outline(Local(s, ox, oy), close, fs, ss)
            == [FillRect(lx, ly, s.width, s.height, fs), StrokeRect(lx, ly, s.width, s.height, ss)]
  {
  }

  /** A Circle's outline about its pivot, call by call. */
  lemma CircleOutlineCalls(s: Shape, ox: JsValue, oy: JsValue, close: bool, fs: Style, ss: Style)
    requires s.CircleShape?
    ensures Outline(Local(s, ox, oy), close, fs, ss)
            == [BeginPath, Arc(Neg(ox), Neg(oy), s.radius, s.start, ToNumber(s.end), s.clockwise)]
               + Closing(close) + [Fill(fs), Stroke(ss)]
  {
  }

  /** An Arc's outline about its pivot, call by call. */
  lemma ArcOutlineCalls(s: Shape, ox: JsValue, oy: JsValue, close: bool, fs: Style, ss: Style)
    requires s.ArcShape?
    ensures var (px, py) := Pivot(s, ox, oy);
            Outline(Local(s, ox, oy), close, fs, ss)
            == [BeginPath, MoveTo(Minus(s.x1, px), Minus(s.y1, py)),
                ArcTo(Minus(s.x2, px), Minus(s.y2, py), Minus(s.x3, px), Minus(s.y3, py), s.radius),
                LineTo(Minus(s.x3, px), Minus(s.y3, py))]
               + Closing(close) + [Fill(fs), Stroke(ss)]
  {
  }

  /** A Bezier's outline about its pivot, call by call. */
  lemma BezierOutlineCalls(s: Shape, ox: JsValue, oy: JsValue, close: bool, fs: Style, ss: Style)
    requires s.BezierShape?
    ensures var (px, py) := Pivot(s, ox, oy);
            Outline(Local(s, ox, oy), close, fs, ss)
            == [BeginPath, MoveTo(Minus(s.x1, px), Minus(s.y1, py)),
                BezierTo(Minus(s.cx1, px), Minus(s.cy1, py), Minus(s.cx2, px), Minus(s.cy2, py),
                         Minus(s.x2, px), Minus(s.y2, py))]
               + Closing(close) + [Fill(fs), Stroke(ss)]
  {
  }

  lemma Associative<T>(a: seq<T>, b: seq<T>, c: seq<T>)
    ensures a + b + c == a + (b + c)
  {
  }

  /** Appending three calls one at a time is appending the three of them. */
  lemma AppendThree<T>(a: seq<T>, x: T, y: T, z: T)
    ensures a + [x] + [y] + [z] == a + [x, y, z]
  {
  }

  /** Appending pieces one after another is appending their concatenation. */
  lemma Regroup<T>(a: seq<T>, b: seq<T>, c: seq<T>, d: seq<T>)
    ensures a + b + c + d == a + (b + c + d)
  {
  }

  // ---------------------------------------------------------------------------
  // The default objects and the nodes.

  class StrokeStyle {
    var color: JsValue
    var width: JsValue
    var cap: JsValue

    constructor ()
      ensures color == Str("MidnightBlue") && width == Num(3.0) && cap == Str("butt")
    {
      color, width, cap := Str("MidnightBlue"), Num(3.0), Str("butt");
    }
  }

  class OriginPoint {
    var x: JsValue
    var y: JsValue

    constructor ()
      ensures x == Num(0.0) && y == Num(0.0)
    {
      x, y := Num(0.0), Num(0.0);
    }
  }

  class ShadowStyle {
    var color: JsValue
    var x: JsValue
    var y: JsValue
    var blur: JsValue

    constructor ()
      ensures color == Str("transparent") && x == Num(5.0) && y == Num(5.0) && blur == Num(10.0)
    {
      color, x, y, blur := Str("transparent"), Num(5.0), Num(5.0), Num(10.0);
    }
  }

  /** `new Canvas.Palette.Object()`: a fresh bundle of defaults, new objects every time. */
  class PaletteObject {
    var stroke: StrokeStyle
    var fill: JsValue
    var close: bool
    var rotation: JsValue
    var origin: OriginPoint
    var shadow: ShadowStyle

    constructor ()
      ensures fresh(stroke) && fresh(origin) && fresh(shadow)
      ensures stroke.color == Str("MidnightBlue") && stroke.width == Num(3.0) && stroke.cap == Str("butt")
      ensures fill == Str("LightGrey") && !close && rotation == Num(0.0)
      ensures origin.x == Num(0.0) && origin.y == Num(0.0)
      ensures shadow.color == Str("transparent") && shadow.x == Num(5.0) && shadow.y == Num(5.0) && shadow.blur == Num(10.0)
    {
      stroke := new StrokeStyle();
      fill := Str("LightGrey");
      close := false;
      rotation := Num(0.0);
      origin := new OriginPoint();
      shadow := new ShadowStyle();
    }
  }

  // ---------------------------------------------------------------------------
  // Nodes.

  /** A node's default-able values: stroke colour, width and cap, fill, close, rotation, origin, shadow. */
  datatype Settings = Settings(strokeColor: JsValue, strokeWidth: JsValue, strokeCap: JsValue, fill: FillStyle,
                               close: bool, rotation: JsValue, originX: JsValue, originY: JsValue,
                               shadowColor: JsValue, shadowX: JsValue, shadowY: JsValue, shadowBlur: JsValue)

  /** MidnightBlue, 3 and butt; LightGrey; open; no rotation; origin (0, 0); a transparent shadow 5, 5 and 10. */
  const Initial := Settings(Str("MidnightBlue"), Num(3.0), Str("butt"), Plain(Str("LightGrey")), false, Num(0.0),
                            Num(0.0), Num(0.0), Str("transparent"), Num(5.0), Num(5.0), Num(10.0))

  /** A node's prototype: which draw method it has. */
  datatype Kind = LineNode | RectangleNode | CircleNode | ArcNode | BezierNode

  /** A fill: a colour value, or a Palette Gradient object. */
  datatype FillStyle = Plain(value: JsValue) | Linear(gradient: Gradient)

  /** The Gradient a fill refers to, if any. */
  function Source(f: FillStyle): set<Gradient>
  {
    if f.Linear? then {f.gradient} else {}
  }

  /** `this.fill != "transparent"` under loose equality: only the string "transparent" is equal. */
  predicate Opaque(f: FillStyle)
  {
    f != Plain(Str("transparent"))
  }

  /** A Palette Gradient, for use as a fill. */
  class Gradient {
    var x1: JsValue
    var y1: JsValue
    var x2: JsValue
    var y2: JsValue
    var stops: seq<Stop>
    /** `_parent`: set by the style code of the node being drawn, and never removed. */
    var parent: Node?

    constructor (x1: JsValue, y1: JsValue, x2: JsValue, y2: JsValue)
      ensures Guard([x1, y1, x2, y2]) ==> this.x1 == x1 && this.y1 == y1 && this.x2 == x2 && this.y2 == y2
      ensures !Guard([x1, y1, x2, y2]) ==>
                this.x1 == Undefined && this.y1 == Undefined && this.x2 == Undefined && this.y2 == Undefined
      ensures stops == [] && parent == null
    {
      this.x1, this.y1, this.x2, this.y2 := Undefined, Undefined, Undefined, Undefined;
      stops := [];
      parent := null;
      new;
      if Guard([x1, y1, x2, y2]) {
        this.x1, this.y1, this.x2, this.y2 := x1, y1, x2, y2;
      }
    }

    method AddStop(offset: JsValue, color: JsValue)
      modifies this`stops
      ensures stops == old(stops) + [Stop(offset, color)]
    {
      stops := stops + [Stop(offset, color)];
    }

    /** The paint this gradient gives a node whose origin is (ox, oy). */
    function Painted(ox: JsValue, oy: JsValue): Paint
      reads this`x1, this`y1, this`x2, this`y2, this`stops
    {
      Relative(x1, y1, x2, y2, stops, ox, oy)
    }

    /**
     * `draw()` for the node `parent`: a linear gradient between the end points
     * taken relative to the parent's origin, with the colour stops added in
     * order.  The source passes the node through the `_parent` property.
     */
    method Draw(parent: Node) returns (p: Paint)
      requires parent.origin != null
      ensures p == Painted(parent.origin.x, parent.origin.y)
      ensures p.LinearGradient? && p.stops == stops
    {
      var ox, oy := parent.origin.x, parent.origin.y;
      var added: seq<Stop> := [];
      var i := 0;
      while i < |stops|
        invariant 0 <= i <= |stops|
        invariant added == stops[..i]
      {
        added := added + [stops[i]];
        i := i + 1;
      }
      p := LinearGradient(Minus(x1, ox), Minus(y1, oy), Minus(x2, ox), Minus(y2, oy), added);
    }

    /**
     * The style code's gradient step as written: `_parent` is set, the
     * gradient is drawn, and `delete` is applied to the returned canvas
     * gradient rather than to this one, so the link to the node stays.
     */
    method LinkAndDraw(node: Node) returns (p: Paint)
      requires node.origin != null
      modifies this`parent
      ensures p == Painted(node.origin.x, node.origin.y)
      ensures parent == node
    {
      parent := node;
      p := Draw(parent);
    }
  }

  /**
   * A Palette node.  Properties never assigned read as `Undefined`; the
   * default objects are absent (null) only until the constructor has run
   * `setDefaults`.  `cx1` .. `cy2` are the Bezier's `c_x1` .. `c_y2`.
   */
  class Node {
    const kind: Kind
    var context: Context?
    var name: JsValue
    var stroke: StrokeStyle?
    var fill: FillStyle
    var close: bool
    var rotation: JsValue
    var origin: OriginPoint?
    var shadow: ShadowStyle?
    var x1: JsValue
    var y1: JsValue
    var x2: JsValue
    var y2: JsValue
    var x3: JsValue
    var y3: JsValue
    var x: JsValue
    var y: JsValue
    var width: JsValue
    var height: JsValue
    var radius: JsValue
    var cx1: JsValue
    var cy1: JsValue
    var cx2: JsValue
    var cy2: JsValue
    var start: JsValue
    var end: JsValue
    var clockwise: bool

    /** The default objects are in place. */
    predicate Styled()
      reads this
    {
      stroke != null && origin != null && shadow != null
    }

    /** The values the defaults concern, read off the node and its default objects. */
    function Values(): Settings
      requires Styled()
      reads this, stroke, origin, shadow
    {
      Settings(stroke.color, stroke.width, stroke.cap, fill, close, rotation, origin.x, origin.y,
               shadow.color, shadow.x, shadow.y, shadow.blur)
    }

    /** The values `new Canvas.Palette.Object()` gives. */
    predicate HasDefaults()
      requires Styled()
      reads this, stroke, origin, shadow
    {
      Values() == Initial
    }

    /** The properties this kind's draw reads its geometry from. */
    function Geometry(): Shape
      reads this
    {
      match kind
      case LineNode => LineShape(x1, y1, x2, y2)
      case RectangleNode => RectShape(x, y, width, height)
      case CircleNode => CircleShape(x, y, radius, start, end, clockwise)
      case ArcNode => ArcShape(x1, y1, x2, y2, x3, y3, radius)
      case BezierNode => BezierShape(x1, y1, x2, y2, cx1, cy1, cx2, cy2)
    }

    /** The fill style setStyle gives the context. */
    function FillPaint(): Paint
      requires origin != null
      reads this, origin, Source(fill)`x1, Source(fill)`y1, Source(fill)`x2, Source(fill)`y2, Source(fill)`stops
    {
      match fill
      case Plain(v) => Value(v)
      case Linear(g) => g.Painted(origin.x, origin.y)
    }

    /** The style slots after setStyle. */
    function StyleOf(): Style
      requires Styled()
      reads this, stroke, origin, shadow, Source(fill)`x1, Source(fill)`y1, Source(fill)`x2, Source(fill)`y2, Source(fill)`stops
    {
      Style(Value(stroke.color), FillPaint(), stroke.width, stroke.cap, shadow.color, shadow.x, shadow.y, shadow.blur)
    }

    /** What this node's draw depends on. */
    function View(): NodeView
      requires Styled()
      reads this, stroke, origin, shadow, Source(fill)`x1, Source(fill)`y1, Source(fill)`x2, Source(fill)`y2, Source(fill)`stops
    {
      NodeView(Geometry(), close, rotation, origin.x, origin.y, StyleOf(), Opaque(fill))
    }

    constructor Line(x1: JsValue, y1: JsValue, x2: JsValue, y2: JsValue)
      ensures kind == LineNode
      ensures Styled() && HasDefaults() && fresh(stroke) && fresh(origin) && fresh(shadow)
      ensures context == null && name == Undefined
      ensures Guard([x1, y1, x2, y2]) ==> Geometry() == LineShape(x1, y1, x2, y2)
      ensures !Guard([x1, y1, x2, y2]) ==> Geometry() == LineShape(Undefined, Undefined, Undefined, Undefined)
    {
      kind := LineNode;
      context, name := null, Undefined;
      stroke, origin, shadow := null, null, null;
      fill, close, rotation := Plain(Undefined), false, Undefined;
      this.x1, this.y1, this.x2, this.y2, this.x3, this.y3 := Undefined, Undefined, Undefined, Undefined, Undefined, Undefined;
      this.x, this.y, this.width, this.height, this.radius := Undefined, Undefined, Undefined, Undefined, Undefined;
      this.cx1, this.cy1, this.cx2, this.cy2 := Undefined, Undefined, Undefined, Undefined;
      start, end, clockwise := Undefined, Undefined, false;
      if Guard([x1, y1, x2, y2]) {
        this.x1, this.y1, this.x2, this.y2 := x1, y1, x2, y2;
      }
      new;
      SetDefaults();
    }

    constructor Rectangle(x: JsValue, y: JsValue, width: JsValue, height: JsValue)
      ensures kind == RectangleNode
      ensures Styled() && HasDefaults() && fresh(stroke) && fresh(origin) && fresh(shadow)
      ensures context == null && name == Undefined
      ensures Guard([x, y, width, height]) ==> Geometry() == RectShape(x, y, width, height)
      ensures !Guard([x, y, width, height]) ==> Geometry() == RectShape(Undefined, Undefined, Undefined, Undefined)
    {
      kind := RectangleNode;
      context, name := null, Undefined;
      stroke, origin, shadow := null, null, null;
      fill, close, rotation := Plain(Undefined), false, Undefined;
      this.x1, this.y1, this.x2, this.y2, this.x3, this.y3 := Undefined, Undefined, Undefined, Undefined, Undefined, Undefined;
      this.x, this.y, this.width, this.height, this.radius := Undefined, Undefined, Undefined, Undefined, Undefined;
      this.cx1, this.cy1, this.cx2, this.cy2 := Undefined, Undefined, Undefined, Undefined;
      start, end, clockwise := Undefined, Undefined, false;
      if Guard([x, y, width, height]) {
        this.x, this.y, this.width, this.height := x, y, width, height;
      }
      new;
      SetDefaults();
    }

    constructor Circle(x: JsValue, y: JsValue, radius: JsValue)
      ensures kind == CircleNode
      ensures Styled() && HasDefaults() && fresh(stroke) && fresh(origin) && fresh(shadow)
      ensures context == null && name == Undefined
      ensures Guard([x, y, radius]) ==> Geometry() == CircleShape(x, y, radius, Num(0.0), Num(360.0), true)
      ensures !Guard([x, y, radius]) ==> Geometry() == CircleShape(Undefined, Undefined, Undefined, Num(0.0), Num(360.0), true)
    {
      kind := CircleNode;
      context, name := null, Undefined;
      stroke, origin, shadow := null, null, null;
      fill, close, rotation := Plain(Undefined), false, Undefined;
      this.x1, this.y1, this.x2, this.y2, this.x3, this.y3 := Undefined, Undefined, Undefined, Undefined, Undefined, Undefined;
      this.x, this.y, this.width, this.height, this.radius := Undefined, Undefined, Undefined, Undefined, Undefined;
      this.cx1, this.cy1, this.cx2, this.cy2 := Undefined, Undefined, Undefined, Undefined;
      start, end, clockwise := Undefined, Undefined, false;
      if Guard([x, y, radius]) {
        this.x, this.y, this.radius := x, y, radius;
      }
      new;
      SetDefaults();
    }

    constructor Arc(x1: JsValue, y1: JsValue, x2: JsValue, y2: JsValue, x3: JsValue, y3: JsValue, radius: JsValue)
      ensures kind == ArcNode
      ensures Styled() && HasDefaults() && fresh(stroke) && fresh(origin) && fresh(shadow)
      ensures context == null && name == Undefined
      ensures Guard([x1, y1, x2, y2, x3, y3, radius]) ==> Geometry() == ArcShape(x1, y1, x2, y2, x3, y3, radius)
      ensures !Guard([x1, y1, x2, y2, x3, y3, radius]) ==> Geometry() == ArcShape(Undefined, Undefined, Undefined, Undefined, Undefined, Undefined, Undefined)
    {
      kind := ArcNode;
      context, name := null, Undefined;
      stroke, origin, shadow := null, null, null;
      fill, close, rotation := Plain(Undefined), false, Undefined;
      this.x1, this.y1, this.x2, this.y2, this.x3, this.y3 := Undefined, Undefined, Undefined, Undefined, Undefined, Undefined;
      this.x, this.y, this.width, this.height, this.radius := Undefined, Undefined, Undefined, Undefined, Undefined;
      this.cx1, this.cy1, this.cx2, this.cy2 := Undefined, Undefined, Undefined, Undefined;
      start, end, clockwise := Undefined, Undefined, false;
      if Guard([x1, y1, x2, y2, x3, y3, radius]) {
        this.x1, this.y1, this.x2, this.y2, this.x3, this.y3, this.radius := x1, y1, x2, y2, x3, y3, radius;
      }
      new;
      ghost var g := Geometry();
      SetDefaults();
      assert Geometry() == g;
    }

    constructor Bezier(x1: JsValue, y1: JsValue, x2: JsValue, y2: JsValue,
                       cx1: JsValue, cy1: JsValue, cx2: JsValue, cy2: JsValue)
      ensures kind == BezierNode
      ensures Styled() && HasDefaults() && fresh(stroke) && fresh(origin) && fresh(shadow)
      ensures context == null && name == Undefined
      ensures Guard([x1, y1, x2, y2]) ==> Geometry() == BezierShape(x1, y1, x2, y2, cx1, cy1, cx2, cy2)
      ensures !Guard([x1, y1, x2, y2]) ==> Geometry() == BezierShape(Undefined, Undefined, Undefined, Undefined, Undefined, Undefined, Undefined, Undefined)
    {
      kind := BezierNode;
      context, name := null, Undefined;
      stroke, origin, shadow := null, null, null;
      fill, close, rotation := Plain(Undefined), false, Undefined;
      this.x1, this.y1, this.x2, this.y2, this.x3, this.y3 := Undefined, Undefined, Undefined, Undefined, Undefined, Undefined;
      this.x, this.y, this.width, this.height, this.radius := Undefined, Undefined, Undefined, Undefined, Undefined;
      this.cx1, this.cy1, this.cx2, this.cy2 := Undefined, Undefined, Undefined, Undefined;
      start, end, clockwise := Undefined, Undefined, false;
      if Guard([x1, y1, x2, y2]) {
        this.x1, this.y1, this.x2, this.y2, this.cx1, this.cy1, this.cx2, this.cy2 := x1, y1, x2, y2, cx1, cy1, cx2, cy2;
      }
      new;
      ghost var g := Geometry();
      SetDefaults();
      assert Geometry() == g;
    }

    /**
     * `setDefaults`: every property of a fresh default bundle is copied onto
     * the node, so the node's stroke, origin and shadow objects are its own;
     * a Circle also gets start 0, end 360 and clockwise true.
     */
    method SetDefaults()
      modifies this`stroke, this`fill, this`close, this`rotation, this`origin, this`shadow,
               this`start, this`end, this`clockwise
      ensures Styled() && HasDefaults() && fresh(stroke) && fresh(origin) && fresh(shadow)
      ensures kind == CircleNode ==> start == Num(0.0) && end == Num(360.0) && clockwise
      ensures kind != CircleNode ==> start == old(start) && end == old(end) && clockwise == old(clockwise)
    {
      var defs := new PaletteObject();
      stroke, fill, close, rotation := defs.stroke, Plain(defs.fill), defs.close, defs.rotation;
      origin, shadow := defs.origin, defs.shadow;
      if kind == CircleNode {
        start, end, clockwise := Num(0.0), Num(360.0), true;
      }
    }

    /**
     * `setStyle`: stroke colour, width and cap, the fill (a Gradient is linked
     * to this node and drawn for it first), and the shadow.  As written, the
     * `delete` that follows is applied to the returned canvas gradient, so the
     * Gradient stays linked to this node (`Gradient.LinkAndDraw`).
     */
    method SetStyle()
      requires Styled() && context != null
      modifies context, Source(fill)`parent
      ensures context.Current() == StyleOf()
      ensures context.log == old(context.log)
      ensures View() == old(View())
      ensures fill.Linear? ==> fill.gradient.parent == this
    {
      context.strokeStyle := Value(stroke.color);
      context.lineWidth := stroke.width;
      var f: Paint;
      match fill {
        case Plain(v) =>
          f := Value(v);
        case Linear(g) =>
          f := g.LinkAndDraw(this);
      }
      context.fillStyle := f;
      context.lineCap := stroke.cap;
      context.shadowColor := shadow.color;
      context.shadowOffsetX := shadow.x;
      context.shadowOffsetY := shadow.y;
      context.shadowBlur := shadow.blur;
    }

    /**
     * `setStyle` as its `delete` evidently intends: the same slots, after which
     * the Gradient's link to this node is removed again.
     */
    method SetStyleIntended()
      requires Styled() && context != null
      modifies context, Source(fill)`parent
      ensures context.Current() == StyleOf()
      ensures context.log == old(context.log)
      ensures View() == old(View())
      ensures fill.Linear? ==> fill.gradient.parent == null
    {
      SetStyle();
      if fill.Linear? {
        fill.gradient.parent := null;
      }
    }

    /** `translate` to the pivot, then `rotate` by the node's rotation. */
    method Turn(px: JsValue, py: JsValue)
      requires context != null
      modifies context`log
      ensures context.log == old(context.log) + [Translate(px, py), Rotate(rotation)]
    {
      context.Translate(px, py);
      context.Rotate(rotation);
    }

    /** The inverse rotation, then the inverse translation. */
    method Unturn(px: JsValue, py: JsValue)
      requires context != null
      modifies context`log
      ensures context.log == old(context.log) + [Rotate(Neg(rotation)), Translate(Neg(px), Neg(py))]
    {
      context.Rotate(Neg(rotation));
      context.Translate(Neg(px), Neg(py));
    }

    /** The shadow is hidden from what follows unless the fill is "transparent". */
    method HideShadow()
      requires context != null
      modifies context`shadowColor
      ensures context.Current() == if Opaque(fill) then old(context.Current()).(shadowColor := Str("transparent"))
                                   else old(context.Current())
    {
      if Opaque(fill) {
        context.shadowColor := Str("transparent");
      }
    }

    /** `fill()`, hide the shadow, `stroke()`. */
    method FillAndStroke()
      requires context != null
      modifies context`log, context`shadowColor
      ensures context.log == old(context.log) + [Fill(old(context.Current())), Stroke(context.Current())]
      ensures context.Current() == if Opaque(fill) then old(context.Current()).(shadowColor := Str("transparent"))
                                   else old(context.Current())
    {
      context.Fill();
      HideShadow();
      context.Stroke();
    }

    /** A Line's segment relative to the pivot, stroked. */
    method LineOutline()
      requires kind == LineNode && context != null && origin != null
      modifies context`log
      ensures context.log == old(context.log) + Outline(Local(Geometry(), origin.x, origin.y), close,
                                                        context.Current(), context.Current())
    {
      ghost var log0 := context.log;
      var ox, oy := origin.x, origin.y;
      context.BeginPath();
      context.MoveTo(Neg(ox), Neg(oy));
      context.LineTo(Minus(Minus(x2, x1), ox), Minus(Minus(y2, y1), oy));
      context.Stroke();
      ghost var g := LineShape(x1, y1, x2, y2);
      LineOutlineCalls(g, ox, oy, close, context.Current(), context.Current());
    }

    /** A Rectangle centred on the pivot, filled, then stroked with the shadow hidden unless the fill is "transparent". */
    method RectangleOutline()
      requires kind == RectangleNode && context != null && origin != null
      modifies context`log, context`shadowColor
      ensures context.log == old(context.log) + Outline(Local(Geometry(), origin.x, origin.y), close,
                                                        old(context.Current()), context.Current())
      ensures context.Current() == if Opaque(fill) then old(context.Current()).(shadowColor := Str("transparent"))
                                   else old(context.Current())
    {
      ghost var st := context.Current();
      var ox, oy := origin.x, origin.y;
      context.FillRect(Neg(Plus(Half(width), ox)), Neg(Plus(Half(height), oy)), width, height);
      HideShadow();
      context.StrokeRect(Neg(Plus(Half(width), ox)), Neg(Plus(Half(height), oy)), width, height);
      ghost var g := RectShape(x, y, width, height);
      RectangleOutlineCalls(g, ox, oy, close, st, context.Current());
    }

    /** A Circle's path about the pivot, closed when `close` is set, filled and stroked. */
    method CircleOutline()
      requires kind == CircleNode && context != null && origin != null
      modifies context`log, context`shadowColor
      ensures context.log == old(context.log) + Outline(Local(Geometry(), origin.x, origin.y), close,
                                                        old(context.Current()), context.Current())
      ensures context.Current() == if Opaque(fill) then old(context.Current()).(shadowColor := Str("transparent"))
                                   else old(context.Current())
    {
      ghost var st, log0 := context.Current(), context.log;
      var ox, oy := origin.x, origin.y;
      context.BeginPath();
      context.Arc(Neg(ox), Neg(oy), radius, start, ToNumber(end), clockwise);
      ghost var path := [BeginPath, Command.Arc(Neg(ox), Neg(oy), radius, start, ToNumber(end), clockwise)];
      assert context.log == log0 + path;
      if close {
        context.ClosePath();
      }
      assert context.log == log0 + path + Closing(close);
      assert context.Current() == st;
      FillAndStroke();
      ghost var g := CircleShape(x, y, radius, start, end, clockwise);
      CircleOutlineCalls(g, origin.x, origin.y, close, st, context.Current());
      Regroup(log0, path, Closing(close), [Fill(st), Stroke(context.Current())]);
    }

    /** An Arc's path relative to the pivot (px, py), closed when `close` is set, filled and stroked. */
    method ArcOutline(px: JsValue, py: JsValue)
      requires kind == ArcNode && context != null && origin != null
      requires (px, py) == Pivot(Geometry(), origin.x, origin.y)
      modifies context`log, context`shadowColor
      ensures context.log == old(context.log) + Outline(Local(Geometry(), origin.x, origin.y), close,
                                                        old(context.Current()), context.Current())
      ensures context.Current() == if Opaque(fill) then old(context.Current()).(shadowColor := Str("transparent"))
                                   else old(context.Current())
    {
      ghost var st, log0 := context.Current(), context.log;
      context.BeginPath();
      context.MoveTo(Minus(x1, px), Minus(y1, py));
      context.ArcTo(Minus(x2, px), Minus(y2, py), Minus(x3, px), Minus(y3, py), radius);
      context.LineTo(Minus(x3, px), Minus(y3, py));
      ghost var path := [BeginPath, MoveTo(Minus(x1, px), Minus(y1, py)),
                         ArcTo(Minus(x2, px), Minus(y2, py), Minus(x3, px), Minus(y3, py), radius),
                         LineTo(Minus(x3, px), Minus(y3, py))];
      assert context.log == log0 + path;
      if close {
        context.ClosePath();
      }
      assert context.log == log0 + path + Closing(close);
      assert context.Current() == st;
      FillAndStroke();
      ghost var g := ArcShape(x1, y1, x2, y2, x3, y3, radius);
      ArcOutlineCalls(g, origin.x, origin.y, close, st, context.Current());
      Regroup(log0, path, Closing(close), [Fill(st), Stroke(context.Current())]);
    }

    /** A Bezier's path relative to the pivot (px, py), closed when `close` is set, filled and stroked. */
    method BezierOutline(px: JsValue, py: JsValue)
      requires kind == BezierNode && context != null && origin != null
      requires (px, py) == Pivot(Geometry(), origin.x, origin.y)
      modifies context`log, context`shadowColor
      ensures context.log == old(context.log) + Outline(Local(Geometry(), origin.x, origin.y), close,
                                                        old(context.Current()), context.Current())
      ensures context.Current() == if Opaque(fill) then old(context.Current()).(shadowColor := Str("transparent"))
                                   else old(context.Current())
    {
      ghost var st, log0 := context.Current(), context.log;
      context.BeginPath();
      context.MoveTo(Minus(x1, px), Minus(y1, py));
      context.BezierCurveTo(Minus(cx1, px), Minus(cy1, py), Minus(cx2, px), Minus(cy2, py), Minus(x2, px), Minus(y2, py));
      ghost var path := [BeginPath, MoveTo(Minus(x1, px), Minus(y1, py)),
                         BezierTo(Minus(cx1, px), Minus(cy1, py), Minus(cx2, px), Minus(cy2, py), Minus(x2, px), Minus(y2, py))];
      AppendThree(log0, path[0], path[1], path[2]);
      if close {
        context.ClosePath();
      }
      assert context.log == log0 + path + Closing(close);
      assert context.Current() == st;
      FillAndStroke();
      ghost var g := BezierShape(x1, y1, x2, y2, cx1, cy1, cx2, cy2);
      BezierOutlineCalls(g, origin.x, origin.y, close, st, context.Current());
      Regroup(log0, path, Closing(close), [Fill(st), Stroke(context.Current())]);
    }

    /** `draw` of a Line: set the style, turn about the first point moved by the origin, stroke, turn back. */
    method DrawLine()
      requires kind == LineNode && Styled() && context != null
      modifies context, Source(fill)`parent
      ensures context.log == old(context.log) + Script(old(View()))
      ensures context.Current() == StrokeWith(old(View()))
      ensures View() == old(View())
      ensures fill.Linear? ==> fill.gradient.parent == this
    {
      SetStyle();
      ghost var v, log0 := View(), context.log;
      var px, py := Plus(x1, origin.x), Plus(y1, origin.y);
      assert Lead(v) == [Translate(px, py), Rotate(rotation)];
      Turn(px, py);
      ghost var o := Outline(Local(v.shape, v.originX, v.originY), v.close, v.style, StrokeWith(v));
      assert context.Current() == v.style;
      LineOutline();
      assert Opaque(fill) == v.fillOpaque;
      assert context.Current() == StrokeWith(v);
      assert context.log == log0 + Lead(v) + o;
      Unturn(px, py);
      assert View() == v;
      TrailOf(v);
      Regroup(log0, Lead(v), o, Undoing(Lead(v)));
    }

    /** `draw` of a Rectangle: set the style, turn about the centre moved by the origin, fill and stroke, turn back. */
    method DrawRectangle()
      requires kind == RectangleNode && Styled() && context != null
      modifies context, Source(fill)`parent
      ensures context.log == old(context.log) + Script(old(View()))
      ensures context.Current() == StrokeWith(old(View()))
      ensures View() == old(View())
      ensures fill.Linear? ==> fill.gradient.parent == this
    {
      SetStyle();
      ghost var v, log0 := View(), context.log;
      var px, py := Plus(Plus(x, Half(width)), origin.x), Plus(Plus(y, Half(height)), origin.y);
      assert Lead(v) == [Translate(px, py), Rotate(rotation)];
      Turn(px, py);
      ghost var o := Outline(Local(v.shape, v.originX, v.originY), v.close, v.style, StrokeWith(v));
      assert context.Current() == v.style;
      RectangleOutline();
      assert Opaque(fill) == v.fillOpaque;
      assert context.Current() == StrokeWith(v);
      assert context.log == log0 + Lead(v) + o;
      Unturn(px, py);
      assert View() == v;
      TrailOf(v);
      Regroup(log0, Lead(v), o, Undoing(Lead(v)));
    }

    /** `draw` of a Circle: set the style, turn about the centre moved by the origin, fill and stroke the arc, turn back. */
    method DrawCircle()
      requires kind == CircleNode && Styled() && context != null
      modifies context, Source(fill)`parent
      ensures context.log == old(context.log) + Script(old(View()))
      ensures context.Current() == StrokeWith(old(View()))
      ensures View() == old(View())
      ensures fill.Linear? ==> fill.gradient.parent == this
    {
      SetStyle();
      ghost var v, log0 := View(), context.log;
      var px, py := Plus(x, origin.x), Plus(y, origin.y);
      assert Lead(v) == [Translate(px, py), Rotate(rotation)];
      Turn(px, py);
      ghost var o := Outline(Local(v.shape, v.originX, v.originY), v.close, v.style, StrokeWith(v));
      assert context.Current() == v.style;
      CircleOutline();
      assert Opaque(fill) == v.fillOpaque;
      assert context.Current() == StrokeWith(v);
      assert context.log == log0 + Lead(v) + o;
      Unturn(px, py);
      assert View() == v;
      TrailOf(v);
      Regroup(log0, Lead(v), o, Undoing(Lead(v)));
    }

    /** `draw` of an Arc: set the style, turn about the midpoint of the end points moved by the origin, fill and stroke the path, turn back. */
    method DrawArc()
      requires kind == ArcNode && Styled() && context != null
      modifies context, Source(fill)`parent
      ensures context.log == old(context.log) + Script(old(View()))
      ensures context.Current() == StrokeWith(old(View()))
      ensures View() == old(View())
      ensures fill.Linear? ==> fill.gradient.parent == this
    {
      SetStyle();
      ghost var v, log0 := View(), context.log;
      var px, py := Plus(Half(Plus(x1, x3)), origin.x), Plus(Half(Plus(y1, y3)), origin.y);
      assert Lead(v) == [Translate(px, py), Rotate(rotation)];
      Turn(px, py);
      ghost var o := Outline(Local(v.shape, v.originX, v.originY), v.close, v.style, StrokeWith(v));
      assert context.Current() == v.style;
      ArcOutline(px, py);
      assert Opaque(fill) == v.fillOpaque;
      assert context.Current() == StrokeWith(v);
      assert context.log == log0 + Lead(v) + o;
      Unturn(px, py);
      assert View() == v;
      TrailOf(v);
      Regroup(log0, Lead(v), o, Undoing(Lead(v)));
    }

    /** `draw` of a Bezier: set the style, turn about the midpoint of the end points moved by the origin, fill and stroke the curve, turn back. */
    method DrawBezier()
      requires kind == BezierNode && Styled() && context != null
      modifies context, Source(fill)`parent
      ensures context.log == old(context.log) + Script(old(View()))
      ensures context.Current() == StrokeWith(old(View()))
      ensures View() == old(View())
      ensures fill.Linear? ==> fill.gradient.parent == this
    {
      SetStyle();
      ghost var v, log0 := View(), context.log;
      var px, py := Plus(Half(Plus(x1, x2)), origin.x), Plus(Half(Plus(y1, y2)), origin.y);
      assert Lead(v) == [Translate(px, py), Rotate(rotation)];
      Turn(px, py);
      ghost var o := Outline(Local(v.shape, v.originX, v.originY), v.close, v.style, StrokeWith(v));
      assert context.Current() == v.style;
      BezierOutline(px, py);
      assert Opaque(fill) == v.fillOpaque;
      assert context.Current() == StrokeWith(v);
      assert context.log == log0 + Lead(v) + o;
      Unturn(px, py);
      assert View() == v;
      TrailOf(v);
      Regroup(log0, Lead(v), o, Undoing(Lead(v)));
    }

    /** `draw()`, dispatched on the node's prototype. */
    method Draw()
      requires Styled() && context != null
      modifies context, Source(fill)`parent
      ensures context.log == old(context.log) + Script(old(View()))
      ensures context.Current() == StrokeWith(old(View()))
      ensures View() == old(View())
      ensures fill.Linear? ==> fill.gradient.parent == this
    {
      match kind
      case LineNode => DrawLine();
      case RectangleNode => DrawRectangle();
      case CircleNode => DrawCircle();
      case ArcNode => DrawArc();
      case BezierNode => DrawBezier();
    }
  }

  // ---------------------------------------------------------------------------
  // Several nodes.

  /** The gradients filling some of `ns`. */
  function Fills(ns: seq<Node>): set<Gradient>
    reads ns
  {
    set n, g | n in ns && g in Source(n.fill) :: g
  }

  /** The views of `ns`, in order. */
  function ViewsOf(ns: seq<Node>): (r: seq<NodeView>)
    requires forall n :: n in ns ==> n.Styled()
    reads ns, set n | n in ns :: n.stroke, set n | n in ns :: n.origin, set n | n in ns :: n.shadow, Fills(ns)`x1, Fills(ns)`y1, Fills(ns)`x2, Fills(ns)`y2, Fills(ns)`stops
    ensures |r| == |ns|
    ensures forall i :: 0 <= i < |ns| ==> r[i] == ns[i].View()
  {
    ViewsUpTo(ns, |ns|)
  }

  /** The views of the first `k` of `ns`. */
  function ViewsUpTo(ns: seq<Node>, k: nat): (r: seq<NodeView>)
    requires k <= |ns| && forall n :: n in ns ==> n.Styled()
    reads ns, set n | n in ns :: n.stroke, set n | n in ns :: n.origin, set n | n in ns :: n.shadow, Fills(ns)`x1, Fills(ns)`y1, Fills(ns)`x2, Fills(ns)`y2, Fills(ns)`stops
    ensures |r| == k
    ensures forall i :: 0 <= i < k ==> r[i] == ns[i].View()
  {
    if k == 0 then [] else ViewsUpTo(ns, k - 1) + [ns[k - 1].View()]
  }

  /** Drawing one more node appends its calls. */
  lemma FilmStep(vs: seq<NodeView>, i: nat)
    requires i < |vs|
    ensures Film(vs[..i + 1]) == Film(vs[..i]) + Script(vs[i])
  {
    assert vs[..i + 1][..i] == vs[..i];
  }

  /** A node whose properties, default objects and gradient are untouched looks the same. */
  twostate lemma ViewKept(n: Node)
    requires old(n.Styled())
    requires unchanged(n) && unchanged(n.stroke, n.origin, n.shadow) && unchanged(Source(n.fill)`x1, Source(n.fill)`y1, Source(n.fill)`x2, Source(n.fill)`y2, Source(n.fill)`stops)
    ensures n.Styled() && n.View() == old(n.View())
  {
  }

  /** The same for several nodes. */
  twostate lemma ViewsKept(ns: seq<Node>)
    requires forall n :: n in ns ==>
               old(n.Styled()) && unchanged(n) && unchanged(n.stroke, n.origin, n.shadow) && unchanged(Source(n.fill)`x1, Source(n.fill)`y1, Source(n.fill)`x2, Source(n.fill)`y2, Source(n.fill)`stops)
    ensures forall n :: n in ns ==> n.Styled()
    ensures ViewsOf(ns) == old(ViewsOf(ns))
  {
    forall i | 0 <= i < |ns|
      ensures ns[i].View() == old(ns[i].View())
    {
      ViewKept(ns[i]);
    }
  }

  /** The fills of `nodes`, in order. */
  function FillsOf(nodes: seq<Node>): (r: seq<FillStyle>)
    reads nodes
    ensures |r| == |nodes| && forall k :: 0 <= k < |nodes| ==> r[k] == nodes[k].fill
  {
    if nodes == [] then [] else FillsOf(nodes[..|nodes| - 1]) + [nodes[|nodes| - 1].fill]
  }

  /** `fills[i]` is a Gradient that none of the fills after it and before `fills[n]` is. */
  predicate LastFilled(fills: seq<FillStyle>, i: nat, n: nat)
    requires i < n <= |fills|
  {
    fills[i].Linear? && forall j :: i < j < n ==> fills[j] != fills[i]
  }

  /** A fill that is the last of its Gradient before `fills[n + 1]` is so before `fills[n]`, and differs from `fills[n]`. */
  lemma LastShrinks(fills: seq<FillStyle>, i: nat, n: nat)
    requires i < n < |fills| && LastFilled(fills, i, n + 1)
    ensures LastFilled(fills, i, n) && fills[n] != fills[i]
  {
  }

  /**
   * The body of the scene loop, `nodes[i].draw()`: the node's script is
   * appended, and the Gradients that were left linked to the last of the
   * earlier nodes filled with them stay so, now counting `nodes[i]`.
   */
  method DrawNext(nodes: seq<Node>, i: nat, ghost fills: seq<FillStyle>)
    requires i < |nodes| == |fills| && fills[i] == nodes[i].fill
    requires nodes[i].Styled() && nodes[i].context != null
    modifies nodes[i].context, Source(fills[i])`parent
    ensures nodes[i].context.log == old(nodes[i].context.log) + Script(old(nodes[i].View()))
    ensures (forall k {:trigger LastFilled(fills, k, i)} :: 0 <= k < i && LastFilled(fills, k, i) ==>
               old(fills[k].gradient.parent) == nodes[k]) ==>
            forall k {:trigger LastFilled(fills, k, i + 1)} :: 0 <= k < i + 1 && LastFilled(fills, k, i + 1) ==>
               fills[k].gradient.parent == nodes[k]
  {
    nodes[i].Draw();
    forall k | 0 <= k < i && LastFilled(fills, k, i + 1)
      ensures LastFilled(fills, k, i) && fills[k] != fills[i]
    {
      LastShrinks(fills, k, i);
    }
  }

  /**
   * `for (var object in this.scene) this.scene[object].draw();`, the nodes
   * taken in visiting order.  Each Gradient is left linked to the last node
   * drawn with it.
   */
  method DrawAll(context: Context, nodes: seq<Node>)
    requires forall n :: n in nodes ==> n.Styled() && n.context == context
    modifies context, Fills(nodes)`parent
    ensures context.log == old(context.log) + Film(old(ViewsOf(nodes)))
    ensures forall k :: 0 <= k < |nodes| && LastFilled(old(FillsOf(nodes)), k, |nodes|) ==> nodes[k].fill.gradient.parent == nodes[k]
  {
    ghost var vs, log0, fills := ViewsOf(nodes), context.log, FillsOf(nodes);
    var i := 0;
    while i < |nodes|
      invariant 0 <= i <= |nodes|
      invariant context.log == log0 + Film(vs[..i])
      invariant forall k {:trigger LastFilled(fills, k, i)} :: 0 <= k < i && LastFilled(fills, k, i) ==>
                  fills[k].gradient.parent == nodes[k]
    {
      ViewKept(nodes[i]);
      DrawNext(nodes, i, fills);
      FilmStep(vs, i);
      Associative(log0, Film(vs[..i]), Script(vs[i]));
      i := i + 1;
    }
    assert vs[..|nodes|] == vs;
  }

  /**
   * A Drawing: a canvas of the given size and its 2D context, an animation,
   * and the scene, a dictionary from instance names to nodes.
   */
  class Drawing {
    const name: JsValue
    const width: JsValue
    const height: JsValue
    /** The background colour; left unassigned when the argument is undefined or null. */
    const color: JsValue
    const context: Context
    var mousex: JsValue
    var mousey: JsValue
    const animation: Animations.Animation
    var scene: SceneDict.Dict<Node>

    /** The nodes in the order `for ... in` visits their names. */
    function Nodes(): seq<Node>
      requires SceneDict.Valid(scene)
      reads this
    {
      SceneDict.Ordered(scene)
    }

    /** The scene is a well-formed dictionary whose nodes are styled and draw on this drawing's context. */
    ghost predicate Valid()
      reads this, set n | n in scene.entries.Values :: n
    {
      && SceneDict.Valid(scene)
      && forall n :: n in scene.entries.Values ==> n.context == context && n.Styled()
    }

    /** What the scene's nodes look like, in drawing order. */
    function Views(): seq<NodeView>
      requires Valid()
      reads this, set n | n in scene.entries.Values :: n, Nodes(), set n | n in Nodes() :: n.stroke, set n | n in Nodes() :: n.origin,
            set n | n in Nodes() :: n.shadow, Fills(Nodes())`x1, Fills(Nodes())`y1, Fills(Nodes())`x2, Fills(Nodes())`y2, Fills(Nodes())`stops
    {
      ViewsOf(Nodes())
    }

    /**
     * `new Canvas.Drawing(name, width, height, color)`: the HTML canvas
     * element is replaced by a fresh context; the host's interval table is
     * `timers`.
     */
    constructor (name: JsValue, width: JsValue, height: JsValue, color: JsValue, timers: Animations.Timers)
      requires timers.Valid()
      ensures this.name == name && this.width == width && this.height == height
      ensures !Nullish(color) ==> this.color == color
      ensures Nullish(color) ==> this.color == Undefined
      ensures fresh(context) && context.log == []
      ensures mousex == Undefined && mousey == Undefined
      ensures fresh(animation) && animation.Valid() && animation.Running() == {}
      ensures animation.timers == timers && animation.framerate == Num(12.0) && animation.interval == None
      ensures scene.keys == [] && Valid()
    {
      this.name, this.width, this.height := name, width, height;
      this.color := if color != Undefined && color != Null then color else Undefined;
      context := new Context();
      mousex, mousey := Undefined, Undefined;
      animation := new Animations.Animation(timers);
      scene := SceneDict.Empty();
    }

    /** `add(name, obj)`: stores the node under `name`, then points it at this drawing's context and names it. */
    method Add(name: string, obj: Node)
      requires SceneDict.Valid(scene)
      modifies this`scene, obj`context, obj`name
      ensures scene == SceneDict.Put(old(scene), name, obj)
      ensures obj.context == context && obj.name == Str(name)
      ensures old(Valid()) && obj.Styled() ==> Valid()
    {
      scene := SceneDict.Put(scene, name, obj);
      obj.context := context;
      obj.name := Str(name);
    }

    /** `remove(name)`: `delete this.scene[name]`. */
    method Remove(name: string)
      requires SceneDict.Valid(scene)
      modifies this`scene
      ensures scene == SceneDict.Delete(old(scene), name)
      ensures old(Valid()) ==> Valid()
    {
      scene := SceneDict.Delete(scene, name);
    }

    /** Every node of a valid drawing, in drawing order, is styled and draws on its context. */
    lemma NodesStyled()
      requires Valid()
      ensures forall n :: n in Nodes() ==> n.context == context && n.Styled()
    {
      forall n | n in Nodes()
        ensures n.context == context && n.Styled()
      {
        var j :| 0 <= j < |Nodes()| && Nodes()[j] == n;
        assert n in scene.entries.Values;
      }
    }

    /** `draw()`: clears the canvas, then draws every node in the order their names were added. */
    method Draw()
      requires Valid()
      modifies context, Fills(Nodes())`parent
      ensures context.log == old(context.log) + [ClearRect(Num(0.0), Num(0.0), width, height)] + Film(old(Views()))
      ensures forall k :: 0 <= k < |Nodes()| && LastFilled(old(FillsOf(Nodes())), k, |Nodes()|) ==> Nodes()[k].fill.gradient.parent == Nodes()[k]
    {
      ghost var fills := FillsOf(Nodes());
      context.ClearRect(Num(0.0), Num(0.0), width, height);
      var nodes := SceneDict.Ordered(scene);
      NodesStyled();
      ViewsKept(nodes);
      assert FillsOf(nodes) == fills;
      DrawAll(context, nodes);
    }
  }
}
