/**
 * The stroke segmenter: the pointer handlers of the canvas wrapper as a pure
 * state machine over the remembered previous position. Each pointer event
 * yields zero or one segment; a stroke is the chain of segments between two
 * breaks (button released, drawing not permitted, pointer left the canvas).
 */
module Stroke {
  import opened Options
  import opened Geometry

  /** A pointer event on the canvas: a move with its button mask and position, or leaving the canvas. */
  datatype Pointer = Move(buttons: int, at: Point) | Leave

  /** A straight line from `start` to `end`, in pixel space. */
  datatype Segment = Segment(start: Point, end: Point)

  /** The primary button alone is held. */
  predicate Held(e: Pointer) {
    e.Move? && e.buttons == 1
  }

  /** One event: the new previous position and the segment it draws, if any. */
  function Step(canDraw: bool, prev: Option<Point>, e: Pointer): (r: (Option<Point>, seq<Segment>))
    ensures |r.1| <= 1
    ensures r.1 != [] ==> canDraw && Held(e) && prev.Some? && r.1[0] == Segment(prev.value, e.at)
    ensures r.0.Some? <==> canDraw && Held(e)
    ensures canDraw && Held(e) ==> r.0 == Some(e.at) && (prev.Some? ==> r.1 == [Segment(prev.value, e.at)])
  {
    match e
    case Leave => (None, [])
    case Move(buttons, at) =>
      if buttons != 1 || !canDraw then (None, [])
      else (Some(at), if prev.Some? then [Segment(prev.value, at)] else [])
  }

  /** A sequence of events: the final previous position and every segment drawn, in order. */
  function Run(canDraw: bool, prev: Option<Point>, events: seq<Pointer>): (r: (Option<Point>, seq<Segment>))
    ensures |r.1| <= |events|
    ensures !canDraw ==> r.1 == []
  {
    if events == [] then (prev, [])
    else
      var (p, drawn) := Run(canDraw, prev, events[..|events| - 1]);
      var (q, more) := Step(canDraw, p, events[|events| - 1]);
      (q, drawn + more)
  }

  /** Running two event sequences back to back is running their concatenation. */
  lemma {:induction false} RunAppend(canDraw: bool, prev: Option<Point>, a: seq<Pointer>, b: seq<Pointer>)
    ensures Run(canDraw, prev, a + b).0 == Run(canDraw, Run(canDraw, prev, a).0, b).0
    ensures Run(canDraw, prev, a + b).1 == Run(canDraw, prev, a).1 + Run(canDraw, Run(canDraw, prev, a).0, b).1
  {
    var mid := Run(canDraw, prev, a);
    if b == [] {
      assert a + b == a;
      assert mid.1 + [] == mid.1;
    } else {
      var n := |b| - 1;
      var ab := a + b;
      assert ab[..|ab| - 1] == a + b[..n];
      assert ab[|ab| - 1] == b[n];
      RunAppend(canDraw, prev, a, b[..n]);
      var left := Run(canDraw, mid.0, b[..n]);
      var last := Step(canDraw, left.0, b[n]);
      assert Run(canDraw, mid.0, b) == (last.0, left.1 + last.1);
      assert Run(canDraw, prev, ab) == (last.0, (mid.1 + left.1) + last.1);
      assert (mid.1 + left.1) + last.1 == mid.1 + (left.1 + last.1);
    }
  }

  /** Leaving the canvas breaks the stroke: nothing drawn afterwards connects to a point before. */
  lemma LeaveBreaksStroke(canDraw: bool, prev: Option<Point>, before: seq<Pointer>, after: seq<Pointer>)
    ensures Run(canDraw, prev, before + [Leave] + after).1
         == Run(canDraw, prev, before).1 + Run(canDraw, None, after).1
  {
    RunAppend(canDraw, prev, before, [Leave]);
    RunAppend(canDraw, prev, before + [Leave], after);
  }

  /** The remembered position is always the last event, when that event was a permitted held move. */
  lemma {:induction false} RememberedIsLastMove(canDraw: bool, events: seq<Pointer>)
    ensures var p := Run(canDraw, None, events).0;
            p.Some? ==> events != [] && Held(events[|events| - 1]) && events[|events| - 1].at == p.value
  {
    if events != [] {
      RememberedIsLastMove(canDraw, events[..|events| - 1]);
    }
  }

  /** The segment joins the positions of two consecutive held moves of the event sequence. */
  ghost predicate JoinsConsecutiveMoves(events: seq<Pointer>, s: Segment) {
    exists i :: 0 <= i < |events| - 1 && Held(events[i]) && Held(events[i + 1])
      && events[i].at == s.start && events[i + 1].at == s.end
  }

  /**
   * From a fresh start, every segment drawn joins two consecutive held moves:
   * no segment spans a leave, a released button or a forbidden move.
   */
  lemma {:induction false} SegmentsJoinConsecutiveMoves(canDraw: bool, events: seq<Pointer>)
    ensures forall s :: s in Run(canDraw, None, events).1 ==> JoinsConsecutiveMoves(events, s)
  {
    if events != [] {
      var n := |events| - 1;
      var init := events[..n];
      SegmentsJoinConsecutiveMoves(canDraw, init);
      RememberedIsLastMove(canDraw, init);
      var (p, drawn) := Run(canDraw, None, init);
      var (q, more) := Step(canDraw, p, events[n]);
      forall s | s in drawn + more
        ensures JoinsConsecutiveMoves(events, s)
      {
        if s in drawn {
          var i :| 0 <= i < |init| - 1 && Held(init[i]) && Held(init[i + 1])
            && init[i].at == s.start && init[i + 1].at == s.end;
          assert events[i] == init[i] && events[i + 1] == init[i + 1];
        } else {
          assert events[n - 1] == init[n - 1];
        }
      }
    }
  }

  /** A drag: held moves through the given positions. */
  function Drag(points: seq<Point>): seq<Pointer>
  {
    seq(|points|, i requires 0 <= i < |points| => Move(1, points[i]))
  }

  /**
   * A permitted drag through n points, started fresh, draws n - 1 segments,
   * the k-th from the k-th to the (k+1)-th point: the first move draws
   * nothing and consecutive segments share their endpoints.
   */
  lemma {:induction false} DragDrawsChain(points: seq<Point>)
    requires points != []
    ensures var r := Run(true, None, Drag(points));
            && r.0 == Some(points[|points| - 1])
            && |r.1| == |points| - 1
            && forall k :: 0 <= k < |r.1| ==> r.1[k] == Segment(points[k], points[k + 1])
  {
    var n := |points| - 1;
    assert Drag(points)[..n] == Drag(points[..n]);
    if n > 0 {
      DragDrawsChain(points[..n]);
    }
  }

  /** Consecutive segments of one permitted drag meet: each ends where the next one starts. */
  lemma DragSegmentsMeet(points: seq<Point>, k: nat)
    requires points != []
    requires k + 1 < |Run(true, None, Drag(points)).1|
    ensures Run(true, None, Drag(points)).1[k].end == Run(true, None, Drag(points)).1[k + 1].start
  {
    DragDrawsChain(points);
    var r := Run(true, None, Drag(points)).1;
    assert r[k] == Segment(points[k], points[k + 1]);
    assert r[k + 1] == Segment(points[k + 1], points[k + 2]);
  }
}
