/**
 * An abstract HTML canvas 2D context: the style slots the scene layer writes
 * and an append-only log of the calls it makes.  Rasterisation is not
 * modelled; a call is recorded, and each paint call is stamped with the
 * style slots in force when it was made.  Angles are symbolic degrees.
 */
module Context2D {
  import opened JsValues

  /** A colour stop of a gradient: `addColorStop(offset, color)`. */
  datatype Stop = Stop(offset: JsValue, color: JsValue)

  /** A value of strokeStyle / fillStyle: a plain value or a linear gradient. */
  datatype Paint =
    | Value(v: JsValue)
    | LinearGradient(x0: JsValue, y0: JsValue, x1: JsValue, y1: JsValue, stops: seq<Stop>)

  /** The style slots a paint call is made with. */
  datatype Style = Style(strokeStyle: Paint, fillStyle: Paint, lineWidth: JsValue, lineCap: JsValue,
                         shadowColor: JsValue, shadowOffsetX: JsValue, shadowOffsetY: JsValue, shadowBlur: JsValue)

  /**
   * The context calls.  `Rotate` carries its angle in degrees (the source's
   * `* Math.PI/180` is not modelled); `Arc` carries its start angle as passed
   * (already radians to the canvas) and its end angle in degrees.
   */
  datatype Command =
    | ClearRect(x: JsValue, y: JsValue, w: JsValue, h: JsValue)
    | BeginPath
    | MoveTo(x: JsValue, y: JsValue)
    | LineTo(x: JsValue, y: JsValue)
    | Arc(x: JsValue, y: JsValue, radius: JsValue, startRadians: JsValue, endDegrees: JsValue, anticlockwise: bool)
    | ArcTo(x1: JsValue, y1: JsValue, x2: JsValue, y2: JsValue, radius: JsValue)
    | BezierTo(cp1x: JsValue, cp1y: JsValue, cp2x: JsValue, cp2y: JsValue, x: JsValue, y: JsValue)
    | FillRect(x: JsValue, y: JsValue, w: JsValue, h: JsValue, style: Style)
    | StrokeRect(x: JsValue, y: JsValue, w: JsValue, h: JsValue, style: Style)
    | ClosePath
    | Fill(style: Style)
    | Stroke(style: Style)
    | Translate(x: JsValue, y: JsValue)
    | Rotate(degrees: JsValue)

  predicate IsTransform(c: Command)
  {
    c.Translate? || c.Rotate?
  }

  predicate NoTransforms(cmds: seq<Command>)
  {
    forall i :: 0 <= i < |cmds| ==> !IsTransform(cmds[i])
  }

  class Context {
    var strokeStyle: Paint
    var fillStyle: Paint
    var lineWidth: JsValue
    var lineCap: JsValue
    var shadowColor: JsValue
    var shadowOffsetX: JsValue
    var shadowOffsetY: JsValue
    var shadowBlur: JsValue
    var log: seq<Command>

    /** The style slots as they stand. */
    function Current(): Style
      reads this`strokeStyle, this`fillStyle, this`lineWidth, this`lineCap,
            this`shadowColor, this`shadowOffsetX, this`shadowOffsetY, this`shadowBlur
    {
      Style(strokeStyle, fillStyle, lineWidth, lineCap, shadowColor, shadowOffsetX, shadowOffsetY, shadowBlur)
    }

    /** A fresh context, with the canvas defaults of the HTML standard. */
    constructor ()
      ensures log == []
      ensures strokeStyle == Value(Str("#000000")) && fillStyle == Value(Str("#000000"))
      ensures lineWidth == Num(1.0) && lineCap == Str("butt")
      ensures shadowColor == Str("rgba(0, 0, 0, 0)")
      ensures shadowOffsetX == Num(0.0) && shadowOffsetY == Num(0.0) && shadowBlur == Num(0.0)
    {
      strokeStyle, fillStyle := Value(Str("#000000")), Value(Str("#000000"));
      lineWidth, lineCap := Num(1.0), Str("butt");
      shadowColor := Str("rgba(0, 0, 0, 0)");
      shadowOffsetX, shadowOffsetY, shadowBlur := Num(0.0), Num(0.0), Num(0.0);
      log := [];
    }

    method ClearRect(x: JsValue, y: JsValue, w: JsValue, h: JsValue)
      modifies this`log
      ensures log == old(log) + [Command.ClearRect(x, y, w, h)]
    {
      log := log + [Command.ClearRect(x, y, w, h)];
    }

    method BeginPath()
      modifies this`log
      ensures log == old(log) + [Command.BeginPath]
    {
      log := log + [Command.BeginPath];
    }

    method MoveTo(x: JsValue, y: JsValue)
      modifies this`log
      ensures log == old(log) + [Command.MoveTo(x, y)]
    {
      log := log + [Command.MoveTo(x, y)];
    }

    method LineTo(x: JsValue, y: JsValue)
      modifies this`log
      ensures log == old(log) + [Command.LineTo(x, y)]
    {
      log := log + [Command.LineTo(x, y)];
    }

    method Arc(x: JsValue, y: JsValue, radius: JsValue, startRadians: JsValue, endDegrees: JsValue, anticlockwise: bool)
      modifies this`log
      ensures log == old(log) + [Command.Arc(x, y, radius, startRadians, endDegrees, anticlockwise)]
    {
      log := log + [Command.Arc(x, y, radius, startRadians, endDegrees, anticlockwise)];
    }

    method ArcTo(x1: JsValue, y1: JsValue, x2: JsValue, y2: JsValue, radius: JsValue)
      modifies this`log
      ensures log == old(log) + [Command.ArcTo(x1, y1, x2, y2, radius)]
    {
      log := log + [Command.ArcTo(x1, y1, x2, y2, radius)];
    }

    method BezierCurveTo(cp1x: JsValue, cp1y: JsValue, cp2x: JsValue, cp2y: JsValue, x: JsValue, y: JsValue)
      modifies this`log
      ensures log == old(log) + [Command.BezierTo(cp1x, cp1y, cp2x, cp2y, x, y)]
    {
      log := log + [Command.BezierTo(cp1x, cp1y, cp2x, cp2y, x, y)];
    }

    method FillRect(x: JsValue, y: JsValue, w: JsValue, h: JsValue)
      modifies this`log
      ensures log == old(log) + [Command.FillRect(x, y, w, h, Current())]
    {
      log := log + [Command.FillRect(x, y, w, h, Current())];
    }

    method StrokeRect(x: JsValue, y: JsValue, w: JsValue, h: JsValue)
      modifies this`log
      ensures log == old(log) + [Command.StrokeRect(x, y, w, h, Current())]
    {
      log := log + [Command.StrokeRect(x, y, w, h, Current())];
    }

    method ClosePath()
      modifies this`log
      ensures log == old(log) + [Command.ClosePath]
    {
      log := log + [Command.ClosePath];
    }

    method Fill()
      modifies this`log
      ensures log == old(log) + [Command.Fill(Current())]
    {
      log := log + [Command.Fill(Current())];
    }

    method Stroke()
      modifies this`log
      ensures log == old(log) + [Command.Stroke(Current())]
    {
      log := log + [Command.Stroke(Current())];
    }

    method Translate(x: JsValue, y: JsValue)
      modifies this`log
      ensures log == old(log) + [Command.Translate(x, y)]
    {
      log := log + [Command.Translate(x, y)];
    }

    method Rotate(degrees: JsValue)
      modifies this`log
      ensures log == old(log) + [Command.Rotate(degrees)]
    {
      log := log + [Command.Rotate(degrees)];
    }
  }

  // ---------------------------------------------------------------------------
  // The current transformation, symbolically.
  //
  // A transform call whose arguments are not finite numbers is ignored by the
  // canvas.  The others are kept as a word over translations and rotations,
  // reduced by cancelling a step against its inverse; the empty word is the
  // identity transform.

  datatype Motion = Shift(dx: real, dy: real) | Turn(degrees: real)

  function Opposite(m: Motion): (r: Motion)
  {
    match m
    case Shift(dx, dy) => Shift(-dx, -dy)
    case Turn(d) => Turn(-d)
  }

  /** What a command does to the transform: nothing, or one motion. */
  function Effect(c: Command): Option<Motion>
  {
    match c
    case Translate(x, y) =>
      if ToNumber(x).Num? && ToNumber(y).Num? then Some(Shift(ToNumber(x).n, ToNumber(y).n)) else None
    case Rotate(d) =>
      if ToNumber(d).Num? then Some(Turn(ToNumber(d).n)) else None
    case _ => None
  }

  /** No motion is directly followed by its own inverse. */
  ghost predicate Reduced(w: seq<Motion>)
  {
    forall i :: 0 <= i < |w| - 1 ==> w[i + 1] != Opposite(w[i])
  }

  /** Appends a motion to a reduced word, cancelling it against an inverse at the end. */
  function Then(w: seq<Motion>, m: Motion): seq<Motion>
  {
    if w != [] && w[|w| - 1] == Opposite(m) then w[..|w| - 1] else w + [m]
  }

  function Step(w: seq<Motion>, c: Command): seq<Motion>
  {
    match Effect(c)
    case None => w
    case Some(m) => Then(w, m)
  }

  /** The transform after running `cmds` from the transform `w`. */
  function NetFrom(w: seq<Motion>, cmds: seq<Command>): seq<Motion>
    decreases |cmds|
  {
    if cmds == [] then w else NetFrom(Step(w, cmds[0]), cmds[1..])
  }

  /** The net transform a command sequence leaves behind; [] is the identity. */
  function Net(cmds: seq<Command>): seq<Motion>
  {
    NetFrom([], cmds)
  }

  /** The call that undoes a transform call, as the scene layer writes it: negated arguments. */
  function Undo(c: Command): (r: Command)
  {
    match c
    case Translate(x, y) => Translate(Neg(x), Neg(y))
    case Rotate(d) => Rotate(Neg(d))
    case _ => c
  }

  /** The calls undoing `lead`, last one first. */
  function Undoing(lead: seq<Command>): (r: seq<Command>)
    ensures |r| == |lead|
    ensures forall i :: 0 <= i < |lead| ==> r[i] == Undo(lead[|lead| - 1 - i])
  {
    if lead == [] then [] else Undoing(lead[1..]) + [Undo(lead[0])]
  }

  /** Undo(c) moves the transform by the inverse of what c moves it by. */
  lemma UndoEffect(c: Command)
    requires IsTransform(c)
    ensures Effect(c).None? ==> Effect(Undo(c)).None?
    ensures Effect(c).Some? ==> Effect(Undo(c)) == Some(Opposite(Effect(c).value))
  {
  }

  /** Following a motion by its inverse gets back to a reduced word. */
  lemma ThenOpposite(w: seq<Motion>, m: Motion)
    requires Reduced(w)
    ensures Reduced(Then(w, m))
    ensures Then(Then(w, m), Opposite(m)) == w
  {
    var n := |w|;
    assert Opposite(Opposite(m)) == m;
    if n > 0 && w[n - 1] == Opposite(m) {
      var v := w[..n - 1];
      if n > 1 {
        assert w[n - 1] != Opposite(w[n - 2]);
        assert v[|v| - 1] != m;
      }
      assert v + [Opposite(m)] == w;
    } else {
      assert (w + [m])[..n] == w;
    }
  }

  lemma {:induction false} NetAppend(w: seq<Motion>, a: seq<Command>, b: seq<Command>)
    ensures NetFrom(w, a + b) == NetFrom(NetFrom(w, a), b)
    decreases |a|
  {
    if a != [] {
      assert (a + b)[0] == a[0] && (a + b)[1..] == a[1..] + b;
      NetAppend(Step(w, a[0]), a[1..], b);
    } else {
      assert a + b == b;
    }
  }

  lemma {:induction false} NetStill(w: seq<Motion>, mid: seq<Command>)
    requires NoTransforms(mid)
    ensures NetFrom(w, mid) == w
    decreases |mid|
  {
    if mid != [] {
      NetStill(w, mid[1..]);
    }
  }

  /** A transform call followed by its undoing call leaves a reduced transform where it was. */
  lemma StepUndo(w: seq<Motion>, t: Command)
    requires Reduced(w) && IsTransform(t)
    ensures Reduced(Step(w, t))
    ensures Step(Step(w, t), Undo(t)) == w
  {
    UndoEffect(t);
    if Effect(t).Some? { ThenOpposite(w, Effect(t).value); }
  }

  /** Peeling the first transform call off a sandwich. */
  lemma SandwichShape(t: Command, rest: seq<Command>, mid: seq<Command>)
    ensures [t] + rest + mid + Undoing([t] + rest) == [t] + ((rest + mid + Undoing(rest)) + [Undo(t)])
  {
    var lead := [t] + rest;
    assert lead[0] == t && lead[1..] == rest;
  }

  /**
   * Transform balance: transform calls, then calls that do not transform, then
   * the undoing calls in reverse order, leave the transform where it was.
   */
  lemma {:induction false} SandwichCancels(w: seq<Motion>, lead: seq<Command>, mid: seq<Command>)
    requires Reduced(w)
    requires forall i :: 0 <= i < |lead| ==> IsTransform(lead[i])
    requires NoTransforms(mid)
    ensures NetFrom(w, lead + mid + Undoing(lead)) == w
    decreases |lead|
  {
    if lead == [] {
      assert lead + mid + Undoing(lead) == mid;
      NetStill(w, mid);
    } else {
      var t, rest := lead[0], lead[1..];
      var inner := rest + mid + Undoing(rest);
      var w1 := Step(w, t);
      StepUndo(w, t);
      assert lead == [t] + rest;
      SandwichShape(t, rest, mid);
      assert NetFrom(w, lead + mid + Undoing(lead)) == NetFrom(w1, inner + [Undo(t)]);
      NetAppend(w1, inner, [Undo(t)]);
      SandwichCancels(w1, rest, mid);
      assert NetFrom(w1, [Undo(t)]) == Step(w1, Undo(t));
    }
  }

  /** The same, from the identity transform. */
  lemma Balanced(lead: seq<Command>, mid: seq<Command>)
    requires forall i :: 0 <= i < |lead| ==> IsTransform(lead[i])
    requires NoTransforms(mid)
    ensures Net(lead + mid + Undoing(lead)) == []
  {
    SandwichCancels([], lead, mid);
  }

  // ---------------------------------------------------------------------------
  // Where things land when no rotation takes effect.
  //
  // Placement follows translations only: each command's points are moved by
  // the translation in force, which gives the same command in the untransformed
  // frame.  A rotation by a nonzero angle is outside this view (None).

  /** Moves a numeric argument by `d`. */
  function By(v: JsValue, d: real): JsValue
  {
    Plus(v, Num(d))
  }

  /** A gradient is laid out in the frame its paint call is made in; a plain value stays as it is. */
  function MovedPaint(p: Paint, dx: real, dy: real): Paint
  {
    match p
    case Value(_) => p
    case LinearGradient(x0, y0, x1, y1, stops) => LinearGradient(By(x0, dx), By(y0, dy), By(x1, dx), By(y1, dy), stops)
  }

  /** The style with its paints moved; shadow offsets ignore the transform and are kept. */
  function MovedStyle(s: Style, dx: real, dy: real): Style
  {
    s.(strokeStyle := MovedPaint(s.strokeStyle, dx, dy), fillStyle := MovedPaint(s.fillStyle, dx, dy))
  }

  /** The command in the untransformed frame when the translation in force is (dx, dy). */
  function Moved(c: Command, dx: real, dy: real): Command
  {
    match c
    case ClearRect(x, y, w, h) => ClearRect(By(x, dx), By(y, dy), w, h)
    case MoveTo(x, y) => MoveTo(By(x, dx), By(y, dy))
    case LineTo(x, y) => LineTo(By(x, dx), By(y, dy))
    case Arc(x, y, r, s, e, a) => Arc(By(x, dx), By(y, dy), r, s, e, a)
    case ArcTo(x1, y1, x2, y2, r) => ArcTo(By(x1, dx), By(y1, dy), By(x2, dx), By(y2, dy), r)
    case BezierTo(px, py, qx, qy, x, y) =>
      BezierTo(By(px, dx), By(py, dy), By(qx, dx), By(qy, dy), By(x, dx), By(y, dy))
    case FillRect(x, y, w, h, s) => FillRect(By(x, dx), By(y, dy), w, h, MovedStyle(s, dx, dy))
    case StrokeRect(x, y, w, h, s) => StrokeRect(By(x, dx), By(y, dy), w, h, MovedStyle(s, dx, dy))
    case Fill(s) => Fill(MovedStyle(s, dx, dy))
    case Stroke(s) => Stroke(MovedStyle(s, dx, dy))
    case _ => c
  }

  function MovedAll(cmds: seq<Command>, dx: real, dy: real): (r: seq<Command>)
    ensures |r| == |cmds|
    ensures forall i :: 0 <= i < |cmds| ==> r[i] == Moved(cmds[i], dx, dy)
  {
    if cmds == [] then [] else [Moved(cmds[0], dx, dy)] + MovedAll(cmds[1..], dx, dy)
  }

  /** The non-transform commands of `cmds`, placed in the untransformed frame. */
  function PlacedFrom(dx: real, dy: real, cmds: seq<Command>): Option<seq<Command>>
    decreases |cmds|
  {
    if cmds == [] then Some([])
    else
      match Effect(cmds[0])
      case Some(Shift(a, b)) => PlacedFrom(dx + a, dy + b, cmds[1..])
      case Some(Turn(d)) => if d == 0.0 then PlacedFrom(dx, dy, cmds[1..]) else None
      case None =>
        if IsTransform(cmds[0]) then PlacedFrom(dx, dy, cmds[1..])
        else
          match PlacedFrom(dx, dy, cmds[1..])
          case None => None
          case Some(rest) => Some([Moved(cmds[0], dx, dy)] + rest)
  }

  function Placed(cmds: seq<Command>): Option<seq<Command>>
  {
    PlacedFrom(0.0, 0.0, cmds)
  }

  /** Commands that do not transform are each placed by the translation in force. */
  lemma {:induction false} PlacedStill(dx: real, dy: real, mid: seq<Command>, tail: seq<Command>)
    requires NoTransforms(mid)
    requires PlacedFrom(dx, dy, tail).Some?
    ensures PlacedFrom(dx, dy, mid + tail) == Some(MovedAll(mid, dx, dy) + PlacedFrom(dx, dy, tail).value)
    decreases |mid|
  {
    if mid == [] {
      assert mid + tail == tail;
      assert MovedAll(mid, dx, dy) + PlacedFrom(dx, dy, tail).value == PlacedFrom(dx, dy, tail).value;
    } else {
      assert (mid + tail)[0] == mid[0] && (mid + tail)[1..] == mid[1..] + tail;
      assert !IsTransform(mid[0]) && Effect(mid[0]).None?;
      PlacedStill(dx, dy, mid[1..], tail);
      var rest := PlacedFrom(dx, dy, tail).value;
      assert PlacedFrom(dx, dy, mid + tail) == Some([Moved(mid[0], dx, dy)] + (MovedAll(mid[1..], dx, dy) + rest));
      assert [Moved(mid[0], dx, dy)] + (MovedAll(mid[1..], dx, dy) + rest) == MovedAll(mid, dx, dy) + rest;
    }
  }

  /** Two transform calls are undone by undoing the second, then the first. */
  lemma UndoingPair(t: Command, u: Command)
    ensures Undoing([t, u]) == [Undo(u), Undo(t)]
  {
    assert [t, u][1..] == [u];
    assert [u][1..] == [];
  }

  /** A numeric translation and a zero rotation shift what follows. */
  lemma PlacedLead(a: JsValue, b: JsValue, d: JsValue, rest: seq<Command>)
    requires a.Num? && b.Num? && ToNumber(d) == Num(0.0)
    ensures PlacedFrom(0.0, 0.0, [Translate(a, b), Rotate(d)] + rest) == PlacedFrom(a.n, b.n, rest)
  {
    var tail := [Rotate(d)] + rest;
    assert ([Translate(a, b), Rotate(d)] + rest)[0] == Translate(a, b);
    assert ([Translate(a, b), Rotate(d)] + rest)[1..] == tail;
    assert tail[0] == Rotate(d) && tail[1..] == rest;
    assert 0.0 + a.n == a.n && 0.0 + b.n == b.n;
  }

  /** Undoing that pair from the shifted frame places nothing and comes back to the identity. */
  lemma PlacedTrail(a: JsValue, b: JsValue, d: JsValue)
    requires a.Num? && b.Num? && ToNumber(d) == Num(0.0)
    ensures PlacedFrom(a.n, b.n, Undoing([Translate(a, b), Rotate(d)])) == Some([])
  {
    UndoingPair(Translate(a, b), Rotate(d));
    var trail := [Rotate(Neg(d)), Translate(Neg(a), Neg(b))];
    var t2 := [Translate(Neg(a), Neg(b))];
    assert trail[0] == Rotate(Neg(d)) && trail[1..] == t2;
    assert Effect(Rotate(Neg(d))) == Some(Turn(0.0));
    assert PlacedFrom(a.n, b.n, trail) == PlacedFrom(a.n, b.n, t2);
    assert Effect(Translate(Neg(a), Neg(b))) == Some(Shift(-a.n, -b.n));
    assert t2[1..] == [];
    assert PlacedFrom(a.n, b.n, t2) == PlacedFrom(a.n + -a.n, b.n + -b.n, []);
  }

  /**
   * A pivot translation by (a, b) and a zero rotation, calls that do not
   * transform, and the undoing calls: the middle lands moved by (a, b).
   */
  lemma PlacedPivot(a: JsValue, b: JsValue, d: JsValue, mid: seq<Command>)
    requires a.Num? && b.Num? && ToNumber(d) == Num(0.0)
    requires NoTransforms(mid)
    ensures Placed([Translate(a, b), Rotate(d)] + mid + Undoing([Translate(a, b), Rotate(d)]))
            == Some(MovedAll(mid, a.n, b.n))
  {
    var lead := [Translate(a, b), Rotate(d)];
    var trail := Undoing(lead);
    PlacedTrail(a, b, d);
    PlacedStill(a.n, b.n, mid, trail);
    assert lead + mid + trail == lead + (mid + trail);
    PlacedLead(a, b, d, mid + trail);
    assert MovedAll(mid, a.n, b.n) + [] == MovedAll(mid, a.n, b.n);
  }
}
