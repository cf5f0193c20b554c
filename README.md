# Scribble client: shared canvas and room controller

A Dafny model of the client side of a multiplayer draw-and-guess game. It covers two pieces.

- **The canvas wrapper** (`DrawableCanvas.js`). It holds the draw permission and the remembered pointer position. It turns pointer drags into line segments. Each segment is drawn locally and sent to peers as a `draw` message in unit coordinates. A `draw-line` from a peer is scaled back to this canvas's pixels and drawn. `setContext` assigns an ordered attribute object into the 2D context. A `clearCanvas` attribute clears the surface before its assignment. A `fillStyle` attribute fills the whole surface after its assignment.
- **The room controller** (`room.js`). It keeps the tool state at module level: stroke colour, canvas colour, eraser flag and stroke width. Brush, eraser and size controls apply a style locally and send the same style to peers as `update-context`. The bucket and clear controls differ, as described below. The eraser is the stroke in the canvas colour at ten times the width. The round handlers grant or revoke drawing, clear the surface, reset the brush and keep the guess list.

The model has seven modules:

- `Geometry` handles points and the pixel/unit conversions. These are over `real`, so the round trip is exact.
- `Surface` holds the attribute map (`Context`) and the surface as a log of `Clear`, `FillAll(style)` and `Line(a, b)` operations. `Assign` and `Effects` are the pure meaning of `setContext`. `Visible` is what a viewer sees of a log.
- `Stroke` is the pointer handlers as a pure state machine. `Step` handles one event and `Run` a sequence of events. The trace lemmas are stated about these.
- `Messaging` has the outbound `Message` datatype and a `Socket` whose `sent` field logs every emit.
- `Canvas` has the class `DrawableCanvas`. Its handler methods are proved against `Step`, `Assign` and `Effects`.
- `Room` has the class `Controller`. Its handler methods state the new tool state, the context assigned locally and the messages sent. The predicate `ToolApplied` says the context strokes with the active tool: the brush colour at the stroke width, or the canvas colour at ten times the width for the eraser. Every tool handler and the round reset establish or preserve `ToolApplied`. A window resize resets the context and breaks it (see "Left out").
- `Options` holds the `Option` datatype.

Two points of order in the code:

- A `clearCanvas` entry clears when it is reached (DrawableCanvas.js:10-11). Entries before it are already assigned, and an earlier `fillStyle` fill is wiped. `Effects` keeps this order.
- The guessing round hides the toolbar but leaves `canDraw` as it was (room.js:156-163). `StartRoundGuessing` states that it is unchanged.

The clear button clears the local surface with `clearCanvas()`, which assigns no attribute. Peers receive `{clearCanvas: 1}` and apply it through `setContext`, so their context also gains a `clearCanvas` attribute (room.js:75-78).

A bucket change while the eraser is active is modelled as the code does it. The local stroke colour follows the new canvas colour, but only the fill is sent. A peer therefore keeps the old stroke colour (`BucketLeavesPeerStroke`).

## Model

| member | source | states |
|---|---|---|
| Geometry.Normalize | DrawableCanvas.js:52-57 | the unit point is in the unit square exactly when the pixel point is inside the canvas, and scaling it back gives the pixel point |
| Geometry.ToCanvasSpace | DrawableCanvas.js:59-64 | the pixel point is inside the canvas exactly when the unit point is in the unit square |
| Geometry.RenderThenNormalize | DrawableCanvas.js:52-64 | normalising a rendered unit point gives the unit point back |
| Geometry.AcrossCanvases | DrawableCanvas.js:31-43 | a point sent from a w1 by h1 canvas is drawn on a w2 by h2 canvas at (x·w2/w1, y·h2/h1) |
| Geometry.HalfSizeReceiver | DrawableCanvas.js:52-64 | (400,300)-(500,300) on 800x600 travels as (0.5,0.5)-(0.625,0.5) and lands at (200,150)-(250,150) on 400x300 |
| Surface.Assign | DrawableCanvas.js:9-13 | the keys after `setContext` are the old keys plus every key the attribute object names |
| Surface.Effects | DrawableCanvas.js:10-16 | `setContext` never strokes a line and adds at most one surface operation per entry |
| Surface.EntryEffectsByKey | DrawableCanvas.js:10-16 | a `clearCanvas` entry clears, a `fillStyle` entry fills in its own value, any other entry paints nothing |
| Surface.EffectsInEntryOrder | DrawableCanvas.js:9-17 | each entry's surface operations come after those of the entries before it and before those of the entries after it |
| Surface.FillStyleRepaints | DrawableCanvas.js:13-16 | `setContext({fillStyle: v})` leaves the whole surface filled in v and nothing earlier visible |
| Surface.ClearThenStrokeStyleBlank | DrawableCanvas.js:10-13 | `setContext({clearCanvas: 1, strokeStyle: c})` leaves nothing visible |
| Surface.LastAssignmentWins | DrawableCanvas.js:9-13 | a key ends with the value of the last entry naming it |
| Surface.UnnamedKeyUnchanged | DrawableCanvas.js:9-13 | a key the object does not name keeps its value, or stays absent |
| Surface.AssignAppend | DrawableCanvas.js:9-17 | two successive `setContext` calls assign the same as one call with the entries concatenated |
| Surface.EffectsAppend | DrawableCanvas.js:9-17 | the surface operations of concatenated objects are the concatenated operations |
| Surface.StyleOnlyTouchesNoPixels | DrawableCanvas.js:10-16 | an object naming neither `clearCanvas` nor `fillStyle` leaves the surface untouched |
| Surface.EffectsCount | DrawableCanvas.js:10-16 | exactly one surface operation per `clearCanvas` or `fillStyle` entry |
| Surface.ClearHidesEarlier | DrawableCanvas.js:5-7 | after a clear, nothing drawn before it is visible |
| Surface.FillHidesEarlier | DrawableCanvas.js:14-16 | a `fillStyle` fill covers everything drawn before it |
| Surface.ClearIdempotent | DrawableCanvas.js:5-7 | clearing twice shows the same surface as clearing once, whatever follows |
| Stroke.Step | DrawableCanvas.js:22-40 | one pointer event draws at most one segment, and does so exactly when drawing is permitted, the primary button alone is held and a previous position exists; that segment runs from the previous position to the new one; a position is remembered exactly when the move is permitted and held, and it is the move's position |
| Stroke.Run | DrawableCanvas.js:22-40 | a sequence of events draws no more segments than events, and none when drawing is not permitted |
| Stroke.RunAppend | DrawableCanvas.js:22-40 | the segmenter's runs compose over concatenated event sequences |
| Stroke.LeaveBreaksStroke | DrawableCanvas.js:39-40 | the segments around a `mouseleave` are those of the part before plus those of the part after started fresh: no segment joins a point before the leave to one after |
| Stroke.RememberedIsLastMove | DrawableCanvas.js:23-37 | a remembered position is always the position of the last event, which was a held move |
| Stroke.SegmentsJoinConsecutiveMoves | DrawableCanvas.js:23-40 | every segment drawn joins the positions of two consecutive held moves |
| Stroke.DragDrawsChain | DrawableCanvas.js:28-37 | a permitted drag through n points draws n-1 segments, the k-th from point k to point k+1; the first move draws nothing |
| Stroke.DragSegmentsMeet | DrawableCanvas.js:29-37 | consecutive segments of one drag share an endpoint |
| Messaging.Socket.Emit | DrawableCanvas.js:31-34 | an emit appends its message to the outbound log |
| Canvas.LinesHideNothing | DrawableCanvas.js:45-50 | stroked lines add to what is visible and hide nothing already there |
| Canvas.DrawMessages | DrawableCanvas.js:31-34 | each segment becomes one `draw` message whose points, scaled back to this canvas, are the segment's points |
| Canvas.DrawableCanvas.constructor | DrawableCanvas.js:1-4 | a new canvas may not be drawn on, remembers no position and has an empty context and surface |
| Canvas.DrawableCanvas.ClearCanvas | DrawableCanvas.js:5-7 | appends one clear and changes no attribute |
| Canvas.DrawableCanvas.SetContext | DrawableCanvas.js:8-18 | the context becomes `Assign` of the entries and the surface gains `Effects` of the entries |
| Canvas.DrawableCanvas.DrawLine | DrawableCanvas.js:45-50 | appends one line from start to end |
| Canvas.DrawableCanvas.MouseMove | DrawableCanvas.js:22-38 | the new position, the lines drawn and the `draw` messages sent are those of one `Step`; without permission or the primary button nothing is drawn or sent and the position is forgotten |
| Canvas.DrawableCanvas.MouseLeave | DrawableCanvas.js:40 | the remembered position is forgotten |
| Canvas.DrawableCanvas.OnDrawLine | DrawableCanvas.js:41-43 | a peer's segment is drawn in this canvas's pixels whatever the permission; the position and the outbound log are unchanged |
| Room.ToolStyle | room.js:54-58 | a tool selection names exactly the stroke colour and the line width, and touches no pixel |
| Room.ToolStyleSetsStroke | room.js:49-60 | any context applying a tool selection, local or a peer's, ends with that colour and width and keeps every other attribute |
| Room.BucketLeavesPeerStroke | room.js:66-73 | a peer applying the bucket message gets the new fill but keeps its stroke colour |
| Room.Controller.constructor | room.js:40-43 | start-up: the default colours, `joined-room` sent, then a reset with no winner; the context gains the brush style and then width 1, no other canvas state changes, and the brush is applied at width 1 |
| Room.Controller.SelectBrush | room.js:49-64 | the eraser is off and the stroke colour is the swatch colour; the brush style is applied locally and sent unchanged to peers |
| Room.Controller.SelectEraser | room.js:80-93 | the eraser is on; stroke in the canvas colour at ten times the width, applied locally and sent unchanged to peers |
| Room.Controller.ApplyBrushSize | room.js:95-105 | the width becomes the slider value; the line width applied and sent is ten times it with the eraser and the width itself otherwise, and the same map goes both ways |
| Room.Controller.ChangeBrushSize | room.js:95-107 | the slider's change event: as ApplyBrushSize with the new slider value |
| Room.Controller.ChangeBucket | room.js:66-73 | the canvas colour becomes the swatch colour and the surface is filled with it; only the fill is sent, and the local stroke colour follows only with the eraser active |
| Room.Controller.ClickClear | room.js:75-78 | the local surface is cleared, with no attribute change, and peers are sent `clearCanvas: 1` |
| Room.Controller.ClickReady | room.js:121-125 | sends `ready` |
| Room.Controller.OnNewContext | room.js:117-119 | a `new-context` is applied to the local canvas as `setContext` |
| Room.Controller.DisplayGuess | room.js:138-145 | the guess list gains one line with the guesser and the text |
| Room.Controller.SubmitGuess | room.js:127-134 | given the input's text: an empty input sends nothing and adds no line; otherwise the guess is sent and shown under the player's name; the input is empty afterwards |
| Room.Controller.StartRoundDrawing | room.js:147-154 | drawing is permitted, the surface cleared, the guess list emptied and the word shown |
| Room.Controller.StartRoundGuessing | room.js:156-163 | the surface is cleared and the guess list and word emptied; the draw permission is unchanged |
| Room.Controller.AnnounceWinner | room.js:178-184 | the word is shown and the winner line added only when both name and word are non-empty |
| Room.Controller.RestoreBrush | room.js:186-189 | drawing is forbidden, the eraser is off, brush colour from the swatch, width and slider at 1; two updates sent, the brush style then width 1 |
| Room.Controller.ResetRound | room.js:176-192 | the winner announcement when both are given, then always no drawing, brush restored at width 1 and the tool applied to the context |

## Left out

- Connecting to the server and its transport options (room.js:17-19) are not modelled. The socket is only the log of what is emitted. Inbound events are the handler methods.
- The redirect when the URL lacks a name or room id (room.js:10-14) is browser navigation and is left out.
- DOM lookups and show/hide toggling are left out. So are the tool label, button colours, the brush size text and cloning the guess template (room.js:21-38, 138-145, 194-200). The guess list is kept as a sequence of lines, and the shown word as a string.
- Confetti (room.js:2, 123, 183) belongs to another module and is left out.
- Canvas resizing (room.js:165-171, called on every window resize and once at start-up, room.js:136, 174) is not modelled. A canvas's width and height are fixed positive reals given at construction. In the browser, assigning `canvas.width` and `canvas.height` wipes the drawing and resets the context's drawing state: `strokeStyle` and `fillStyle` return to `#000000` and `lineWidth` to 1. So after a resize the local drawing is gone and peers are not told. The eraser style is lost while `isEraser` stays true. Neither `ToolApplied` nor the match between local and peer styles holds after a resize.
- Rasterisation is left out. A `Line` records its endpoints, not the style it was stroked with. A `FillAll` records the fill style.
- Canvas.DrawableCanvas.SetContext: the model treats the 2D context as a plain map, so `setContext` never fails and every key is stored. In the browser the module runs in strict mode, and `context[key] = value` (DrawableCanvas.js:13) throws for the read-only `canvas` attribute, ending the loop at that entry. A key naming a context method (`stroke`, `beginPath`, `fillRect`, `clearRect`, …) replaces that method. Every later line, clear or fill then throws (DrawableCanvas.js:6, 11, 15, 46-49), and a throwing `drawLine` in a move handler also skips the `draw` emit and the position update (DrawableCanvas.js:30-37). Such keys can arrive from a peer through `new-context` (room.js:117-119). None of these failures is modelled.
- `Visible` assumes opaque fills, `globalAlpha` 1 and `source-over` compositing. So do the lemmas built on it: `FillHidesEarlier`, `FillStyleRepaints`, `ClearThenStrokeStyleBlank`, `ClearIdempotent` and `LinesHideNothing`. `setContext` stores any attribute as given (DrawableCanvas.js:13), including one arriving from a peer's `new-context` (room.js:117-119). A translucent `fillStyle` such as `rgba(0,0,0,0.5)`, a `globalAlpha` below 1 or another `globalCompositeOperation` is therefore accepted. Under such a setting a whole-surface fill does not hide earlier drawing, and a line may hide or alter what lies under it. `Visible` does not describe those cases.
- Coordinates are reals. The browser's double rounding is not modelled, so the exact round trip holds only here.
- The 2D context starts as an empty map. The browser's default attribute values are not modelled, and neither is the browser rejecting an invalid value. Every assignment is stored as given.
- Room.Controller.ApplyBrushSize: the slider value is a `nat`. The page reads it as a string, so `lineWidth` holds a string where the model holds a number, and `strokeWidth * 10` is a coerced product.
- Room.Controller.constructor: it models start-up up to and including `resetRound()` (room.js:173). The `resizeCanvas()` that follows (room.js:174) is not modelled. In the browser it resets the context to its defaults, so the page actually starts with the default black stroke at width 1 rather than the state `ToolApplied` describes.
