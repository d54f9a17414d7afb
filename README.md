# Canvas scene layer, modelled in Dafny

This project models the scene layer of a small JavaScript drawing library over
the HTML canvas 2D context, in two revisions:

- `src/canvas_api.js`, the newer revision (module `CanvasApi`). A `Drawing` owns
  a canvas context, an `animation` object and a `scene`, a dictionary from
  instance names to Palette nodes. The nodes are Line, Rectangle, Circle, Arc
  and Bezier. Each node gets its own fresh default objects (stroke, origin,
  shadow) from `Canvas.Palette.Object`. A node draws itself about a pivot:
  - translate to its anchor moved by its origin, then rotate;
  - draw the outline at coordinates relative to the pivot;
  - undo the rotation, then the translation.

  A Gradient fill is laid out relative to the node's origin. The shadow is
  hidden from the stroke unless the fill is "transparent".
- `canvas_api.js`, the older revision (module `LegacyCanvasApi`). There are no
  transforms: every shape is drawn at its own coordinates. One shared
  `Canvas.Palette.defaults` object is copied onto every node by reference, so
  all nodes share one stroke object. The style step reads the stroke colour
  from `stroke.style`, which the defaults never set. A Gradient is offset by
  the node's `x` and `y`.

Shared pieces, one module each:

- `JsValues`: JavaScript values, the constructor guard `(a && b && ...) != undefined`,
  and the numeric operators.
- `Context2D`: an abstract 2D context and the transform algebra.
  - The context holds the eight style slots the scene layer writes and an
    append-only log of calls.
  - Each paint call is stamped with the slots in force.
  - Rotations carry a symbolic angle in degrees.
  - A transform is a word over translations and rotations; the empty word is
    the identity.
- `Outlines`: the calls each shape draws at given coordinates, and painting order.
- `SceneDict`: a JavaScript object used as an insertion-ordered dictionary.
- `Animations`: the `animation` object over a table of host intervals. The code
  is the same in both revisions (src/canvas_api.js:137-163 and canvas_api.js:100-125).

The state-changing code is imperative Dafny:

- `Drawing`, `Node`, `Gradient` and the default objects are classes whose
  methods update fields.
- Each `draw` appends to the context's log step by step.
- Each method is proved against a pure specification: `Script`/`Film` in the
  newer revision and `Script`/`Film` with the slots in force in the older one.
  Lemmas state what those specifications promise:
  - transform balance;
  - the origin cancelling out;
  - painting order;
  - the older revision's calls agreeing with the newer one's.

## Model

| member | source | states |
|---|---|---|
| JsValues.And | src/canvas_api.js:390 | `a && b` is `b` when `a` is truthy and `a` itself otherwise |
| JsValues.AndAllValue | src/canvas_api.js:390 | a left-grouped `&&` chain evaluates to its first falsy operand, or to its last operand when all are truthy |
| JsValues.GuardCases | src/canvas_api.js:390 | the guard passes iff every argument is truthy or the first falsy one is neither undefined nor null |
| JsValues.GuardNonzeroNumbers | src/canvas_api.js:425 | arguments that are all nonzero numbers pass the guard |
| JsValues.GuardMissing | src/canvas_api.js:463 | when the first non-truthy argument is undefined or null, the guard fails and nothing is assigned |
| JsValues.GuardShortCircuit | src/canvas_api.js:502 | a 0 or NaN ahead of missing arguments short-circuits the chain, so the guard still passes |
| JsValues.ToNumber | src/canvas_api.js:476 | numeric conversion gives a number or NaN: numbers unchanged, undefined gives NaN, null gives 0 |
| JsValues.Plus | src/canvas_api.js:437 | `a + b` on numbers is their sum, and is a number exactly when both operands convert to numbers |
| JsValues.Minus | src/canvas_api.js:522 | `a - b` on numbers is their difference, and is a number exactly when both operands convert |
| JsValues.Neg | src/canvas_api.js:404 | unary minus negates a number, and is NaN exactly when the operand does not convert |
| JsValues.Half | src/canvas_api.js:435 | `a / 2` halves a number, and is NaN exactly when the operand does not convert |
| Context2D.Undoing | src/canvas_api.js:408-409 | the undoing calls mirror the leading calls: the i-th undoes the i-th from the end |
| Context2D.UndoEffect | src/canvas_api.js:408-409 | a call with negated arguments moves the transform by the inverse motion |
| Context2D.SandwichCancels | src/canvas_api.js:400-409 | transform calls, then calls that do not transform, then the undoing calls in reverse order, leave any reduced transform where it was |
| Context2D.Balanced | src/canvas_api.js:400-409 | the same from the identity: the net transform of such a sequence is the identity |
| Context2D.UndoingPair | src/canvas_api.js:400-409 | a translate and a rotate are undone by the inverse rotate, then the inverse translate |
| Context2D.PlacedPivot | src/canvas_api.js:400-409 | with a zero rotation, a pivot translation by (a, b), untransformed calls and the undoing calls place those calls moved by (a, b), and nothing else |
| Outlines.OutlineStill | canvas_api.js:281-288 | drawing any shape makes no transform call |
| Outlines.MovedOutline | src/canvas_api.js:400-405 | moving a shape's calls by (dx, dy) gives the calls for the shape moved by (dx, dy), with gradients moved alike |
| Outlines.PaintOrder | canvas_api.js:310-315 | a Line is only stroked; every other shape is filled exactly once, then stroked exactly once, with the given styles |
| Outlines.CloseRule | canvas_api.js:340 | closePath is called iff `close` is set and the shape is a Circle, Arc or Bezier |
| Outlines.PaintsAppend | canvas_api.js:167-169 | the paint calls of two call sequences in a row are those of each, in order |
| SceneDict.Empty | src/canvas_api.js:168 | a new scene is a well-formed dictionary with no names |
| SceneDict.Put | src/canvas_api.js:181 | `scene[name] = obj` maps name to obj and keeps every other entry. A new name goes last in the visiting order; a present name keeps its place |
| SceneDict.Delete | src/canvas_api.js:194 | `delete scene[name]` removes only that name, keeps the order of the rest, and changes nothing when the name is absent |
| SceneDict.Ordered | src/canvas_api.js:206-208 | the values are listed in visiting order, one per name |
| SceneDict.PutDeleteFresh | src/canvas_api.js:180-195 | adding a new name and removing it gives back the scene |
| SceneDict.PutPresentKeepsOrder | src/canvas_api.js:181 | re-adding a present name replaces its node in place, so the visiting order is unchanged |
| SceneDict.DeletePutMovesLast | src/canvas_api.js:180-195 | removing a name and adding it again moves it to the end of the visiting order |
| Animations.Cleared | src/canvas_api.js:162 | `clearInterval(handle)` stops exactly that interval; undefined or an unknown handle stops nothing |
| Animations.Timers.SetInterval | src/canvas_api.js:150 | `setInterval` registers the interval under a handle never given out before |
| Animations.Timers.ClearInterval | src/canvas_api.js:162 | `clearInterval` removes that handle's interval only |
| Animations.Animation.constructor | src/canvas_api.js:129-137 | the framerate starts at 12, no interval is set and none of this animation's intervals is running |
| Animations.Animation.Stop | src/canvas_api.js:161-163 | `stop()` clears the current interval, so none of this animation's intervals runs |
| Animations.Animation.Start | src/canvas_api.js:148-151 | `start(cb)` stops the current interval first and registers a new one at the current framerate, so exactly one interval of this animation runs |
| CanvasApi.ScriptBalanced | src/canvas_api.js:400-409 | a node's draw leaves the context's transform as it found it |
| CanvasApi.FilmBalanced | src/canvas_api.js:204-209 | drawing any number of nodes leaves the transform as it found it |
| CanvasApi.TrailOf | src/canvas_api.js:531-532 | a draw ends with `rotate(-r)` and then `translate(-px, -py)`, the inverses of its first two calls in reverse order |
| CanvasApi.LocalShifted | src/canvas_api.js:515-524 | shifting the pivot-relative shape back by the pivot gives the node's own shape, for any origin |
| CanvasApi.OriginCancels | src/canvas_api.js:566-574 | with rotation 0 and numeric coordinates, a draw's calls land exactly on the node's own coordinates (Line from (x1,y1) to (x2,y2), rect at (x, y), arc centred at (x, y), Arc and Bezier through their points), whatever the origin |
| CanvasApi.GradientFollowsAnchor | src/canvas_api.js:610-614 | a gradient laid out relative to the origin lands relative to the node's anchor once the pivot translation is applied |
| CanvasApi.ScriptPaints | src/canvas_api.js:443-445 | a Line is only stroked; other nodes are filled, then stroked. The stroke's shadow is "transparent" iff the fill is not "transparent" or the shadow colour already is |
| CanvasApi.LineOutlineCalls | src/canvas_api.js:403-406 | a Line's calls about its pivot: moveTo(-ox, -oy), lineTo((x2-x1)-ox, (y2-y1)-oy), stroke |
| CanvasApi.RectangleOutlineCalls | src/canvas_api.js:443-445 | a Rectangle's fillRect and strokeRect at (-(w/2+ox), -(h/2+oy)), full width and height |
| CanvasApi.CircleOutlineCalls | src/canvas_api.js:475-480 | a Circle's arc at (-ox, -oy) with its radius, start and converted end, closed when `close` is set, then fill and stroke |
| CanvasApi.ArcOutlineCalls | src/canvas_api.js:521-529 | an Arc's moveTo, arcTo and lineTo at its points minus the pivot, closed when `close` is set, then fill and stroke |
| CanvasApi.BezierOutlineCalls | src/canvas_api.js:572-578 | a Bezier's moveTo and bezierCurveTo at its points minus the pivot, closed when `close` is set, then fill and stroke |
| CanvasApi.PaletteObject.constructor | src/canvas_api.js:229-342 | a fresh default bundle: new stroke, origin and shadow objects; MidnightBlue / 3 / butt, LightGrey, open, rotation 0, origin (0, 0), shadow transparent / 5 / 5 / 10 |
| CanvasApi.Gradient.constructor | src/canvas_api.js:594-602 | end points are assigned iff the guard passes; the stop list starts empty |
| CanvasApi.Gradient.AddStop | src/canvas_api.js:603-608 | `addStop` appends `{offset, color}` at the end of the stops |
| CanvasApi.Gradient.Draw | src/canvas_api.js:610-622 | a linear gradient between the end points minus the parent's origin, with every stop added in array order |
| CanvasApi.Gradient.LinkAndDraw | src/canvas_api.js:364-368 | the gradient step as written: the gradient is drawn for the node, and the node stays linked as `_parent` afterwards |
| CanvasApi.Node.Line | src/canvas_api.js:387-396 | a new Line has fresh default objects holding the defaults; its points are assigned iff the guard passes |
| CanvasApi.Node.Rectangle | src/canvas_api.js:422-431 | a new Rectangle has fresh defaults; x, y, width and height are assigned iff the guard passes |
| CanvasApi.Node.Circle | src/canvas_api.js:460-468 | a new Circle has fresh defaults plus start 0, end 360 and clockwise; centre and radius are assigned iff the guard passes |
| CanvasApi.Node.Arc | src/canvas_api.js:499-511 | a new Arc has fresh defaults; its three points and radius are assigned iff the guard passes |
| CanvasApi.Node.Bezier | src/canvas_api.js:549-562 | a new Bezier has fresh defaults; all eight coordinates are assigned iff the guard on the four end-point arguments passes |
| CanvasApi.Node.SetDefaults | src/canvas_api.js:345-355 | the node gets fresh stroke, origin and shadow objects, so it shares none with another node; the values are the defaults; a Circle also gets start 0, end 360, clockwise |
| CanvasApi.Node.SetStyle | src/canvas_api.js:356-374 | the style slots become the node's stroke colour, width and cap, its fill (a Gradient resolved for this node) and its shadow. Nothing is logged and the node's view is unchanged. As written, a Gradient fill is left linked to this node |
| CanvasApi.Node.SetStyleIntended | src/canvas_api.js:364-368 | the same slots and view, with the Gradient's link to the node removed again, as the `delete` intends |
| CanvasApi.Node.Turn | src/canvas_api.js:400-401 | logs the translation to the pivot, then the rotation by the node's rotation |
| CanvasApi.Node.Unturn | src/canvas_api.js:408-409 | logs the inverse rotation, then the inverse translation |
| CanvasApi.Node.FillAndStroke | src/canvas_api.js:478-480 | logs fill with the slots in force, then stroke with the shadow hidden iff the fill is not "transparent" |
| CanvasApi.Node.HideShadow | src/canvas_api.js:444 | shadowColor becomes "transparent" iff the fill is not "transparent"; the other slots are kept |
| CanvasApi.Node.LineOutline | src/canvas_api.js:403-406 | logs the Line's outline relative to the pivot, stroked with the current slots |
| CanvasApi.Node.RectangleOutline | src/canvas_api.js:443-445 | logs the fill and the stroke relative to the pivot, the stroke with the shadow hidden unless the fill is "transparent" |
| CanvasApi.Node.CircleOutline | src/canvas_api.js:475-480 | logs the Circle's path relative to the pivot, closed when `close` is set, filled, then stroked with the shadow rule |
| CanvasApi.Node.ArcOutline | src/canvas_api.js:521-529 | logs the Arc's path relative to the pivot, closed when `close` is set, filled, then stroked with the shadow rule |
| CanvasApi.Node.BezierOutline | src/canvas_api.js:572-578 | logs the Bezier's path relative to the pivot, closed when `close` is set, filled, then stroked with the shadow rule |
| CanvasApi.Node.DrawLine | src/canvas_api.js:397-410 | a Line's draw appends exactly its script (pivot transform, outline, undoing calls) and leaves the node unchanged; a Gradient fill is left linked to the node |
| CanvasApi.Node.DrawRectangle | src/canvas_api.js:432-449 | a Rectangle's draw appends exactly its script and leaves the node unchanged |
| CanvasApi.Node.DrawCircle | src/canvas_api.js:469-484 | a Circle's draw appends exactly its script and leaves the node unchanged |
| CanvasApi.Node.DrawArc | src/canvas_api.js:512-533 | an Arc's draw appends exactly its script and leaves the node unchanged |
| CanvasApi.Node.DrawBezier | src/canvas_api.js:563-582 | a Bezier's draw appends exactly its script and leaves the node unchanged |
| CanvasApi.Node.Draw | src/canvas_api.js:207 | any node's `draw()` appends its script, leaves the style slots as its stroke set them and leaves a Gradient fill linked to the node |
| CanvasApi.ViewsOf | src/canvas_api.js:206-208 | one view per node, in order |
| CanvasApi.DrawNext | src/canvas_api.js:207 | one node's draw appends its script and extends the links: each Gradient stays linked to the last node drawn with it |
| CanvasApi.DrawAll | src/canvas_api.js:206-208 | drawing the nodes in order appends their scripts one after the other, and leaves each Gradient linked to the last node drawn with it |
| CanvasApi.Drawing.constructor | src/canvas_api.js:49-168 | name, size and colour (when given) are kept; the context is fresh with an empty log; mouse coordinates are undefined; the animation is idle at framerate 12; the scene is empty |
| CanvasApi.Drawing.Add | src/canvas_api.js:180-184 | the node is stored under the name (others kept), bound to this drawing's context and named |
| CanvasApi.Drawing.Remove | src/canvas_api.js:193-195 | only that name is deleted; an absent name changes nothing |
| CanvasApi.Drawing.NodesStyled | src/canvas_api.js:206-208 | every node the scene visits is styled and draws on the drawing's context |
| CanvasApi.Drawing.Draw | src/canvas_api.js:204-209 | clearRect(0, 0, width, height), then every node's script once, in the scene's visiting order; each Gradient is left linked to the last node drawn with it |
| LegacyCanvasApi.Applied | canvas_api.js:245-258 | the style step sets strokeStyle, fillStyle, lineWidth and lineCap from the node and keeps the four shadow slots |
| LegacyCanvasApi.AppliedTwice | canvas_api.js:245-258 | a second style step overrides the first entirely, so a node's calls do not depend on the node drawn before it |
| LegacyCanvasApi.FilmStill | canvas_api.js:165-170 | drawing any number of nodes makes no transform call |
| LegacyCanvasApi.FilmBalanced | canvas_api.js:165-170 | and so leaves the transform as it was |
| LegacyCanvasApi.FilmPaints | canvas_api.js:165-170 | a scene paints node by node in drawing order: a Line stroked, every other shape filled then stroked |
| LegacyCanvasApi.FilmStep | canvas_api.js:167-169 | drawing one more node appends its calls |
| LegacyCanvasApi.BareOutline | canvas_api.js:281-421 | the styles a shape is painted with do not change which calls are made or where |
| LegacyCanvasApi.SameCalls | canvas_api.js:281-288 | with no rotation, the newer revision's calls for a shape, placed in the untransformed frame, are the older revision's calls for the same shape, up to styles |
| LegacyCanvasApi.StrokeDefaults.constructor | canvas_api.js:197-218 | the shared stroke object holds MidnightBlue / 3 / butt and no `style` |
| LegacyCanvasApi.Defaults.constructor | canvas_api.js:190-233 | the shared defaults: a stroke object, fill LightGrey, close false |
| LegacyCanvasApi.Gradient.constructor | canvas_api.js:433-441 | end points are assigned iff the guard passes; the stop list starts empty |
| LegacyCanvasApi.Gradient.AddStop | canvas_api.js:442-447 | `addStop` appends `{offset, color}` at the end of the stops |
| LegacyCanvasApi.Gradient.Draw | canvas_api.js:449-460 | a linear gradient between the end points offset by the parent's x and y, with every stop added in array order |
| LegacyCanvasApi.Gradient.LinkAndDraw | canvas_api.js:250-254 | the gradient step as written: the gradient is drawn for the node, and the node stays linked as `_parent` afterwards |
| LegacyCanvasApi.GradientUnplaced | canvas_api.js:450-453 | a node with undefined x and y (every Line, Arc and Bezier) filled with a Gradient is given a linear gradient whose four end point coordinates are all NaN |
| LegacyCanvasApi.Node.Line | canvas_api.js:271-280 | a new Line holds the shared stroke object, fill and close; its points are assigned iff the guard passes; x and y stay undefined |
| LegacyCanvasApi.Node.Rectangle | canvas_api.js:300-309 | a new Rectangle holds the shared defaults; x, y, width and height are assigned iff the guard passes |
| LegacyCanvasApi.Node.Circle | canvas_api.js:326-334 | a new Circle holds the shared defaults plus start 0, end 360, clockwise; centre and radius are assigned iff the guard passes |
| LegacyCanvasApi.Node.Arc | canvas_api.js:358-370 | a new Arc holds the shared defaults; its points and radius are assigned iff the guard passes; x and y stay undefined |
| LegacyCanvasApi.Node.Bezier | canvas_api.js:398-411 | a new Bezier holds the shared defaults; all eight coordinates are assigned iff the guard on the four end-point arguments passes; x and y stay undefined |
| LegacyCanvasApi.Node.SetDefaults | canvas_api.js:236-244 | the node refers to the shared stroke object itself (no copy) and takes fill and close; a Circle also gets start 0, end 360, clockwise |
| LegacyCanvasApi.Node.SetStyle | canvas_api.js:245-258 | strokeStyle becomes `stroke.style`, plus width, the resolved fill and cap. The shadow slots are kept and the node's view is unchanged. As written, a Gradient fill is left linked to this node |
| LegacyCanvasApi.Node.SetStyleIntended | canvas_api.js:250-254 | the same slots and view, with the Gradient's link to the node removed again, as the `delete` intends |
| LegacyCanvasApi.Node.LineOutline | canvas_api.js:284-287 | logs beginPath, moveTo(x1, y1), lineTo(x2, y2), stroke |
| LegacyCanvasApi.Node.RectangleOutline | canvas_api.js:313-314 | logs fillRect then strokeRect at (x, y, width, height) |
| LegacyCanvasApi.Node.CircleOutline | canvas_api.js:338-342 | logs the arc at (x, y), closed when `close` is set, filled, stroked |
| LegacyCanvasApi.Node.ArcOutline | canvas_api.js:374-381 | logs moveTo, arcTo and lineTo through the three points, closed when `close` is set, filled, stroked |
| LegacyCanvasApi.Node.BezierOutline | canvas_api.js:415-420 | logs moveTo and bezierCurveTo from (x1, y1) to (x2, y2), closed when `close` is set, filled, stroked |
| LegacyCanvasApi.Node.DrawLine | canvas_api.js:281-288 | a Line's draw applies its style and appends its outline at its own coordinates |
| LegacyCanvasApi.Node.DrawRectangle | canvas_api.js:310-315 | a Rectangle's draw applies its style and appends its outline at its own coordinates |
| LegacyCanvasApi.Node.DrawCircle | canvas_api.js:335-343 | a Circle's draw applies its style and appends its outline at its own coordinates |
| LegacyCanvasApi.Node.DrawArc | canvas_api.js:371-382 | an Arc's draw applies its style and appends its outline at its own coordinates |
| LegacyCanvasApi.Node.DrawBezier | canvas_api.js:412-421 | a Bezier's draw applies its style and appends its outline at its own coordinates |
| LegacyCanvasApi.Node.Draw | canvas_api.js:168 | any node's `draw()` applies its style and appends its outline, leaving the node unchanged and a Gradient fill linked to it |
| LegacyCanvasApi.SharedStroke | canvas_api.js:237 | nodes holding the same stroke object stroke with the same style, width and cap, so a change to one changes all |
| LegacyCanvasApi.StrokeColourUnused | canvas_api.js:246 | with `stroke.style` unset, the stroke style handed to the context is undefined, never the defaults' colour |
| LegacyCanvasApi.ViewsOf | canvas_api.js:167-169 | one view per node, in order |
| LegacyCanvasApi.DrawNext | canvas_api.js:168 | one node's draw appends its calls from the slots in force, whatever node came before, and extends the links: each Gradient stays linked to the last node drawn with it |
| LegacyCanvasApi.DrawAll | canvas_api.js:167-169 | drawing the nodes in order appends their calls one after the other, each node's style overriding the one before, and leaves each Gradient linked to the last node drawn with it |
| LegacyCanvasApi.Drawing.constructor | canvas_api.js:49-130 | name, size and colour (when given) are kept; the context is fresh; the animation is idle at framerate 12; the scene is empty |
| LegacyCanvasApi.Drawing.Add | canvas_api.js:142-145 | the node is stored under the name (others kept) and bound to this drawing's context; it is not named |
| LegacyCanvasApi.Drawing.Remove | canvas_api.js:154-156 | only that name is deleted; an absent name changes nothing |
| LegacyCanvasApi.Drawing.NodesStyled | canvas_api.js:167-169 | every node the scene visits is styled and draws on the drawing's context |
| LegacyCanvasApi.Drawing.Draw | canvas_api.js:165-170 | clearRect(0, 0, width, height), then every node's calls once, in the scene's visiting order, from the slots in force; each Gradient is left linked to the last node drawn with it |

## Left out

- The HTML page and canvas element (`document.writeln`, `getElementById`,
  `getContext`): a `Drawing` gets a fresh abstract context instead.
- The empty mouse handlers of the newer revision: they do nothing. The
  `mousex` and `mousey` properties are modelled.
- Rasterisation: curve shapes, gradient colour interpolation, pixels and
  shadow rendering. Calls are recorded, not performed. `createLinearGradient`
  and `addColorStop` are recorded in the returned paint, without their errors
  for non-finite or out-of-range arguments.
- Canvas setters that ignore invalid values: the model stores whatever is
  assigned. For example, the older revision's undefined strokeStyle is stored
  rather than ignored.
- Floating point and trigonometry:
  - numbers are reals with no rounding or infinities;
  - rotations keep their angle in degrees (the `* Math.PI/180` is not
    modelled);
  - the Circle's end angle is kept as the converted value, and its start angle
    is passed as given;
  - where geometry lands under a nonzero rotation is outside the placement
    lemmas.
- String operands in arithmetic: `+` with a string concatenates in
  JavaScript, and a numeric string converts to its number. Here a non-empty
  string converts to NaN.
- The Circle's `clockwise` property is passed as the canvas's `anticlockwise`
  argument, as the source does; what that means on screen is not modelled.
- Property enumeration order of integer-like names: `SceneDict` visits every
  name in insertion order. JavaScript visits integer-like names first, in
  numeric order.
- A node added to two drawings, or a value that is not a Palette node added to
  the scene: the scene holds `Node` objects only.
- Properties that callers add to the defaults: the defaults' `for ... in`
  copy is modelled for the properties the source defines.
- The older revision's `Canvas.Palette.defaults` is a global. Here it is a
  `Defaults` object passed to each constructor.
- Callbacks are known by an identity only, and host intervals by a table.
- Animations.Animation.Start: records the framerate the period
  `1000/framerate` is computed from, not the period itself. A framerate of 0
  would give an infinite period, which the real-valued model has no value for.
- CanvasApi.Node.Line: the guarded assignment is made before the defaults are
  copied, the reverse of the source's order. The two steps write disjoint
  properties, so the resulting node is the same. The same holds for the other
  constructors in both revisions.
- CanvasApi.Node.Draw: requires the node to have a context. A node drawn
  before it is added to a drawing throws a TypeError in the source; that error
  path is not modelled. The same holds for every `draw` in both revisions.
- CanvasApi.Gradient.Draw: requires the parent's origin to be present. A
  Gradient drawn without `_parent` throws in the source; that error path is
  not modelled.
- CanvasApi.Node.Draw: a negative radius makes `arc` and `arcTo` throw an
  IndexSizeError (src/canvas_api.js:476 and 523; canvas_api.js:339 and 376).
  The model logs the call instead. In the newer revision the throw comes after
  the translate and rotate, so the transform is left shifted and
  `Drawing.draw` stops at that node.
- CanvasApi.ScriptBalanced: holds only for a draw that does not throw; the
  negative-radius throw above leaves the transform shifted.
- CanvasApi.FilmBalanced: holds only for a scene none of whose draws throws,
  for the same reason.
- LegacyCanvasApi.GradientUnplaced: the NaN end points reach
  `createLinearGradient` (canvas_api.js:455), which throws a TypeError for
  non-finite arguments. So every draw of a Line, Arc or Bezier filled with a
  Gradient throws in the older revision; the model records the paint instead.
- `close` and `clockwise` are booleans here. The source tests
  `this.close == true` loosely (src/canvas_api.js:477), so 1 or "1" would also
  close the path, and passes `clockwise` to `arc` unconverted. Non-boolean
  values for these properties are not modelled.
- The drawing path keeps the link as written: every `draw` uses
  `Node.SetStyle`, not `Node.SetStyleIntended`, so the model shows the links
  that the source leaves behind.
- The demo application (my_canvas.js) and the generated documentation index
  (docs/jsindex.js) are not part of this model. Tween, Radial, Text, Video,
  Audio and Image are not defined in either revision, so they are not modelled.

## Findings

| source | as written | input that shows it | evidently intended | confidence | as-written member | corrected member |
|---|---|---|---|---|---|---|
| src/canvas_api.js:364-368 | `_fill` is reassigned to the canvas gradient returned by `draw()` before `delete _fill._parent`. The delete therefore removes nothing from the Palette Gradient, which keeps `_parent` pointing at the node | a Rectangle whose fill is a Gradient g, drawn once: afterwards g's `_parent` is that Rectangle | the link to the node is removed once the gradient has been drawn | high; not executed | CanvasApi.Node.SetStyle | CanvasApi.Node.SetStyleIntended |
| canvas_api.js:250-254 | the same reassignment before `delete _fill._parent`, so the Palette Gradient keeps its link to the node | a Circle whose fill is a Gradient g, drawn once: afterwards g's `_parent` is that Circle | the link to the node is removed once the gradient has been drawn | high; not executed | LegacyCanvasApi.Node.SetStyle | LegacyCanvasApi.Node.SetStyleIntended |
