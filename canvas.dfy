/**
 * The canvas wrapper: the draw permission, the remembered pointer position,
 * the 2D context's attribute map and the surface it paints, wired to the
 * socket it emits `draw` messages on.
 */
module Canvas {
  import opened Options
  import opened Geometry
  import opened Surface
  import opened Stroke
  import opened Messaging

  /** The lines a list of segments puts on the local surface. */
  function LocalLines(segments: seq<Segment>): seq<SurfaceOp>
  {
    seq(|segments|, k requires 0 <= k < |segments| => Line(segments[k].start, segments[k].end))
  }

  /** Stroked lines add to what is visible and hide nothing already there. */
  lemma {:induction false} LinesHideNothing(before: seq<SurfaceOp>, segments: seq<Segment>)
    ensures Visible(before + LocalLines(segments)) == Visible(before) + LocalLines(segments)
  {
    if segments != [] {
      var n := |segments| - 1;
      var lines := LocalLines(segments);
      assert lines == LocalLines(segments[..n]) + [lines[n]];
      assert before + lines == (before + LocalLines(segments[..n])) + [lines[n]];
      LinesHideNothing(before, segments[..n]);
    } else {
      assert before + LocalLines(segments) == before;
    }
  }

  /** The `draw` messages a list of segments sends: each segment in unit space. */
  function DrawMessages(segments: seq<Segment>, width: real, height: real): (ms: seq<Message>)
    requires width > 0.0 && height > 0.0
    ensures |ms| == |segments|
    ensures forall k :: 0 <= k < |segments| ==>
      ms[k].Draw? && ToCanvasSpace(ms[k].start, width, height) == segments[k].start
                  && ToCanvasSpace(ms[k].end, width, height) == segments[k].end
  {
    seq(|segments|, k requires 0 <= k < |segments| =>
      Draw(Normalize(segments[k].start, width, height), Normalize(segments[k].end, width, height)))
  }

  class DrawableCanvas {
    const width: real
    const height: real
    const socket: Socket
    var canDraw: bool
    var prevPosition: Option<Point>
    var context: Context
    var surface: seq<SurfaceOp>

    ghost predicate Valid() {
      width > 0.0 && height > 0.0
    }

    constructor (width: real, height: real, socket: Socket)
      requires width > 0.0 && height > 0.0
      ensures Valid()
      ensures this.width == width && this.height == height && this.socket == socket
      ensures !canDraw && prevPosition == None && context == map[] && surface == []
    {
      this.width, this.height, this.socket := width, height, socket;
      canDraw := false;
      prevPosition := None;
      context := map[];
      surface := [];
    }

    /** Clears the whole surface; no attribute changes. */
    method ClearCanvas()
      modifies this`surface
      ensures surface == old(surface) + [Clear]
      ensures context == old(context)
    {
      surface := surface + [Clear];
    }

    /**
     * Assigns every entry in order; a `clearCanvas` entry clears the surface
     * before its assignment and a `fillStyle` entry fills it after.
     */
    method SetContext(entries: seq<Entry>)
      modifies this`context, this`surface
      ensures context == Assign(old(context), entries)
      ensures surface == old(surface) + Effects(entries)
    {
      var i := 0;
      while i < |entries|
        invariant 0 <= i <= |entries|
        invariant context == Assign(old(context), entries[..i])
        invariant surface == old(surface) + Effects(entries[..i])
      {
        var (key, value) := entries[i];
        assert entries[..i + 1][..i] == entries[..i];
        if key == ClearKey {
          surface := surface + [Clear];
        }
        context := context[key := value];
        if key == FillKey {
          surface := surface + [FillAll(context[FillKey])];
        }
        i := i + 1;
      }
      assert entries[..i] == entries;
    }

    /** Strokes one line on the surface with the current style. */
    method DrawLine(start: Point, end: Point)
      modifies this`surface
      ensures surface == old(surface) + [Line(start, end)]
    {
      surface := surface + [Line(start, end)];
    }

    /**
     * A pointer move at (`layerX`, `layerY`) with button mask `buttons`.
     * Drawn locally and sent to peers: exactly the segments of one step of
     * the stroke segmenter, in pixel space here and in unit space on the wire.
     */
    method MouseMove(buttons: int, layerX: real, layerY: real)
      requires Valid()
      modifies this`prevPosition, this`surface, socket
      ensures var (p, drawn) := Step(canDraw, old(prevPosition), Move(buttons, Point(layerX, layerY)));
              && prevPosition == p
              && surface == old(surface) + LocalLines(drawn)
              && socket.sent == old(socket.sent) + DrawMessages(drawn, width, height)
      ensures buttons != 1 || !canDraw ==>
        prevPosition == None && surface == old(surface) && socket.sent == old(socket.sent)
    {
      if buttons != 1 || !canDraw {
        prevPosition := None;
        return;
      }
      var newPosition := Point(layerX, layerY);
      if prevPosition != None {
        DrawLine(prevPosition.value, newPosition);
        socket.Emit(Draw(Normalize(prevPosition.value, width, height), Normalize(newPosition, width, height)));
      }
      prevPosition := Some(newPosition);
    }

    /** The pointer left the canvas: the stroke in progress ends. */
    method MouseLeave()
      modifies this`prevPosition
      ensures prevPosition == None
    {
      prevPosition := None;
    }

    /**
     * A `draw-line` from a peer, in unit space: drawn in this canvas's pixel
     * space whatever the permission, and never sent back.
     */
    method OnDrawLine(start: Point, end: Point)
      requires Valid()
      modifies this`surface
      ensures surface == old(surface) + [Line(ToCanvasSpace(start, width, height), ToCanvasSpace(end, width, height))]
      ensures prevPosition == old(prevPosition) && socket.sent == old(socket.sent)
    {
      DrawLine(ToCanvasSpace(start, width, height), ToCanvasSpace(end, width, height));
    }
  }
}
