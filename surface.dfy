/**
 * The 2D drawing context and the surface it paints, as values.
 * The context is the open attribute map the canvas wrapper assigns into; the
 * surface is the log of full-surface and line operations issued to it.
 */
module Surface {
  import opened Geometry

  /** An attribute value: a colour string or a number (line width, the clear flag). */
  datatype Value = Str(s: string) | Num(n: int)

  /** One attribute assignment, in the order the attribute object lists it. */
  type Entry = (string, Value)

  type Context = map<string, Value>

  /** What the surface receives: a full clear, a full fill in a style, or one stroked line. */
  datatype SurfaceOp = Clear | FillAll(style: Value) | Line(from: Point, to: Point)

  const ClearKey := "clearCanvas"
  const FillKey := "fillStyle"
  const StrokeKey := "strokeStyle"
  const WidthKey := "lineWidth"

  function KeysOf(entries: seq<Entry>): set<string> {
    set i | 0 <= i < |entries| :: entries[i].0
  }

  /** The context after assigning every entry, first to last. */
  function Assign(ctx: Context, entries: seq<Entry>): (r: Context)
    ensures r.Keys == ctx.Keys + KeysOf(entries)
  {
    if entries == [] then ctx
    else
      var init := entries[..|entries| - 1];
      var (key, value) := entries[|entries| - 1];
      assert KeysOf(entries) == KeysOf(init) + {key};
      Assign(ctx, init)[key := value]
  }

  /** The surface operations one entry causes around its own assignment. */
  function EntryEffects(e: Entry): seq<SurfaceOp> {
    (if e.0 == ClearKey then [Clear] else []) + (if e.0 == FillKey then [FillAll(e.1)] else [])
  }

  /** The surface operations a whole attribute object causes, in entry order. */
  function Effects(entries: seq<Entry>): (r: seq<SurfaceOp>)
    ensures |r| <= |entries|
    ensures forall k :: 0 <= k < |r| ==> !r[k].Line?
  {
    if entries == [] then []
    else Effects(entries[..|entries| - 1]) + EntryEffects(entries[|entries| - 1])
  }

  /**
   * What a viewer sees: a clear wipes everything before it, a fill paints
   * over everything before it, and lines accumulate on top. This reads every
   * fill as opaque and every line as drawn over what is there (full alpha,
   * source-over compositing).
   */
  function Visible(ops: seq<SurfaceOp>): seq<SurfaceOp> {
    if ops == [] then []
    else
      match ops[|ops| - 1]
      case Clear => []
      case FillAll(style) => [FillAll(style)]
      case Line(a, b) => Visible(ops[..|ops| - 1]) + [Line(a, b)]
  }

  /** The last entry for a key decides its value. */
  lemma {:induction false} LastAssignmentWins(ctx: Context, entries: seq<Entry>, i: nat)
    requires i < |entries|
    requires forall j :: i < j < |entries| ==> entries[j].0 != entries[i].0
    ensures entries[i].0 in Assign(ctx, entries)
    ensures Assign(ctx, entries)[entries[i].0] == entries[i].1
  {
    if i < |entries| - 1 {
      LastAssignmentWins(ctx, entries[..|entries| - 1], i);
    }
  }

  /** A key the attribute object does not name keeps its previous value, or stays absent. */
  lemma {:induction false} UnnamedKeyUnchanged(ctx: Context, entries: seq<Entry>, key: string)
    requires forall j :: 0 <= j < |entries| ==> entries[j].0 != key
    ensures key in Assign(ctx, entries) <==> key in ctx
    ensures key in ctx ==> Assign(ctx, entries)[key] == ctx[key]
  {
    if entries != [] {
      UnnamedKeyUnchanged(ctx, entries[..|entries| - 1], key);
    }
  }

  /** Applying two attribute objects one after the other is applying their concatenation. */
  lemma {:induction false} AssignAppend(ctx: Context, a: seq<Entry>, b: seq<Entry>)
    ensures Assign(ctx, a + b) == Assign(Assign(ctx, a), b)
  {
    if b != [] {
      assert (a + b)[..|a + b| - 1] == a + b[..|b| - 1];
      AssignAppend(ctx, a, b[..|b| - 1]);
    } else {
      assert a + b == a;
    }
  }

  /** Surface effects of a concatenation are the concatenated effects. */
  lemma {:induction false} EffectsAppend(a: seq<Entry>, b: seq<Entry>)
    ensures Effects(a + b) == Effects(a) + Effects(b)
  {
    if b != [] {
      assert (a + b)[..|a + b| - 1] == a + b[..|b| - 1];
      EffectsAppend(a, b[..|b| - 1]);
    } else {
      assert a + b == a;
    }
  }

  /**
   * A `clearCanvas` entry clears the surface, a `fillStyle` entry fills it in
   * the entry's own value, and any other entry leaves it alone.
   */
  lemma EntryEffectsByKey(e: Entry)
    ensures e.0 == ClearKey ==> EntryEffects(e) == [Clear]
    ensures e.0 == FillKey ==> EntryEffects(e) == [FillAll(e.1)]
    ensures e.0 != ClearKey && e.0 != FillKey ==> EntryEffects(e) == []
  {
  }

  /**
   * The entry at position i contributes its own operations between those of
   * the entries before it and those of the entries after it.
   */
  lemma {:induction false} EffectsInEntryOrder(entries: seq<Entry>, i: nat)
    requires i < |entries|
    ensures Effects(entries) == Effects(entries[..i]) + EntryEffects(entries[i]) + Effects(entries[i + 1..])
  {
    var prefix, e, suffix := entries[..i], entries[i], entries[i + 1..];
    var upTo := prefix + [e];
    assert entries == upTo + suffix;
    EffectsAppend(upTo, suffix);
    EffectsSnoc(prefix, e);
  }

  lemma {:induction false} EffectsSnoc(prefix: seq<Entry>, e: Entry)
    ensures Effects(prefix + [e]) == Effects(prefix) + EntryEffects(e)
  {
    var all := prefix + [e];
    assert all[..|all| - 1] == prefix;
    assert all[|all| - 1] == e;
  }

  /** Setting `fillStyle` repaints the whole surface in that style, hiding all earlier drawing. */
  lemma FillStyleRepaints(before: seq<SurfaceOp>, style: Value)
    ensures Visible(before + Effects([(FillKey, style)])) == [FillAll(style)]
  {
    assert [(FillKey, style)][..0] == [];
    assert Effects([(FillKey, style)]) == [FillAll(style)];
  }

  /** `{clearCanvas: 1, strokeStyle: c}` leaves nothing visible: the clear comes first, the stroke style paints nothing. */
  lemma ClearThenStrokeStyleBlank(before: seq<SurfaceOp>, color: string)
    ensures Visible(before + Effects([(ClearKey, Num(1)), (StrokeKey, Str(color))])) == []
  {
    var entries := [(ClearKey, Num(1)), (StrokeKey, Str(color))];
    assert entries[..1] == [(ClearKey, Num(1))];
    assert entries[..1][..0] == [];
    assert Effects(entries) == [Clear];
  }

  /** An object naming neither `clearCanvas` nor `fillStyle` leaves the surface as it was. */
  lemma {:induction false} StyleOnlyTouchesNoPixels(entries: seq<Entry>)
    requires forall j :: 0 <= j < |entries| ==> entries[j].0 != ClearKey && entries[j].0 != FillKey
    ensures Effects(entries) == []
  {
    if entries != [] {
      StyleOnlyTouchesNoPixels(entries[..|entries| - 1]);
    }
  }

  /** One surface operation per `clearCanvas` or `fillStyle` entry, and none for any other key. */
  lemma {:induction false} EffectsCount(entries: seq<Entry>)
    ensures |Effects(entries)| == |set j | 0 <= j < |entries| && entries[j].0 in {ClearKey, FillKey}|
  {
    if entries != [] {
      var n := |entries| - 1;
      EffectsCount(entries[..n]);
      var before := set j | 0 <= j < n && entries[..n][j].0 in {ClearKey, FillKey};
      var all := set j | 0 <= j < |entries| && entries[j].0 in {ClearKey, FillKey};
      if entries[n].0 in {ClearKey, FillKey} {
        assert all == before + {n};
      } else {
        assert all == before;
      }
    }
  }

  /** A clear hides everything drawn before it. */
  lemma {:induction false} ClearHidesEarlier(before: seq<SurfaceOp>, after: seq<SurfaceOp>)
    ensures Visible(before + [Clear] + after) == Visible(after)
  {
    if after == [] {
      assert before + [Clear] + after == before + [Clear];
    } else {
      var n := |after| - 1;
      assert (before + [Clear] + after)[..|before| + 1 + n] == before + [Clear] + after[..n];
      ClearHidesEarlier(before, after[..n]);
    }
  }

  /** A fill paints over everything drawn before it. */
  lemma {:induction false} FillHidesEarlier(before: seq<SurfaceOp>, style: Value, after: seq<SurfaceOp>)
    ensures Visible(before + [FillAll(style)] + after) == Visible([FillAll(style)] + after)
  {
    if after == [] {
      assert before + [FillAll(style)] + after == before + [FillAll(style)];
      assert [FillAll(style)] + after == [FillAll(style)];
    } else {
      var n := |after| - 1;
      assert (before + [FillAll(style)] + after)[..|before| + 1 + n] == before + [FillAll(style)] + after[..n];
      assert ([FillAll(style)] + after)[..1 + n] == [FillAll(style)] + after[..n];
      FillHidesEarlier(before, style, after[..n]);
    }
  }

  /** Clearing twice shows the same surface as clearing once, whatever is drawn afterwards. */
  lemma ClearIdempotent(before: seq<SurfaceOp>, after: seq<SurfaceOp>)
    ensures Visible(before + [Clear, Clear] + after) == Visible(before + [Clear] + after)
  {
    assert before + [Clear, Clear] + after == (before + [Clear]) + [Clear] + after;
    ClearHidesEarlier(before + [Clear], after);
    ClearHidesEarlier(before, after);
  }
}
