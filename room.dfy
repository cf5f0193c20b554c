/**
 * The room page's controller: the tool state the page keeps at module level
 * (stroke colour, canvas colour, eraser flag, stroke width), the guess input
 * and the guess list, and the handlers that drive the canvas and the socket.
 */
module Room {
  import opened Options
  import opened Surface
  import opened Messaging
  import opened Canvas

  const DefaultStrokeColor := "#000000"
  const DefaultCanvasColor := "#FFFFFF"
  /** The eraser strokes in the canvas colour at this multiple of the stroke width. */
  const EraserScale := 10

  /** A line of the guess list: who guessed (absent for the winner announcement) and the text. */
  datatype GuessLine = GuessLine(guesser: Option<string>, text: string)

  /** The style attributes a tool selection applies: stroke colour and line width. */
  function ToolStyle(color: string, width: nat): (entries: seq<Entry>)
    ensures KeysOf(entries) == {StrokeKey, WidthKey}
    ensures Effects(entries) == []
  {
    var entries := [(StrokeKey, Str(color)), (WidthKey, Num(width))];
    assert entries[..1] == [(StrokeKey, Str(color))];
    assert KeysOf(entries) == {entries[0].0, entries[1].0};
    entries
  }

  /**
   * Any context, local or a peer's, that applies a tool selection strokes in
   * its colour and width afterwards, and keeps every other attribute.
   */
  lemma ToolStyleSetsStroke(ctx: Context, color: string, width: nat)
    ensures Assign(ctx, ToolStyle(color, width))[StrokeKey] == Str(color)
    ensures Assign(ctx, ToolStyle(color, width))[WidthKey] == Num(width)
    ensures forall k :: k in ctx && k != StrokeKey && k != WidthKey ==> Assign(ctx, ToolStyle(color, width))[k] == ctx[k]
  {
    var entries := ToolStyle(color, width);
    LastAssignmentWins(ctx, entries, 0);
    LastAssignmentWins(ctx, entries, 1);
    forall k | k in ctx && k != StrokeKey && k != WidthKey
      ensures Assign(ctx, entries)[k] == ctx[k]
    {
      UnnamedKeyUnchanged(ctx, entries, k);
    }
  }

  /**
   * A bucket change sends only the fill: a peer's stroke colour stays what it
   * was, even while the sender's eraser has switched to the new canvas colour.
   */
  lemma BucketLeavesPeerStroke(peer: Context, bucketSwatch: string)
    requires StrokeKey in peer
    ensures Assign(peer, [(FillKey, Str(bucketSwatch))])[StrokeKey] == peer[StrokeKey]
    ensures Assign(peer, [(FillKey, Str(bucketSwatch))])[FillKey] == Str(bucketSwatch)
  {
    UnnamedKeyUnchanged(peer, [(FillKey, Str(bucketSwatch))], StrokeKey);
    LastAssignmentWins(peer, [(FillKey, Str(bucketSwatch))], 0);
  }

  /** The guess-list line announcing the round's winner. */
  function WinnerLine(winner: string): (line: GuessLine)
  {
    GuessLine(None, winner + " is the winner")
  }

  /** A JavaScript string argument is truthy when present and non-empty. */
  predicate Truthy(s: Option<string>) {
    s.Some? && s.value != ""
  }

  class Controller {
    const canvas: DrawableCanvas
    const socket: Socket
    const name: string
    var strokeColor: string
    var canvasColor: string
    var isEraser: bool
    var strokeWidth: nat
    var sliderValue: nat
    var guessInput: string
    var guesses: seq<GuessLine>
    var word: string

    ghost predicate Valid() {
      canvas.socket == socket && canvas.Valid()
    }

    /** The stroke colour the active tool paints with. */
    function ToolColor(): string
      reads this
    {
      if isEraser then canvasColor else strokeColor
    }

    /** The line width the active tool paints with. */
    function ToolWidth(): nat
      reads this
    {
      if isEraser then EraserScale * strokeWidth else strokeWidth
    }

    /** The canvas context strokes with the active tool: the eraser rule holds on the surface. */
    ghost predicate ToolApplied()
      reads this, canvas
    {
      && StrokeKey in canvas.context && canvas.context[StrokeKey] == Str(ToolColor())
      && WidthKey in canvas.context && canvas.context[WidthKey] == Num(ToolWidth())
    }

    /**
     * Page start-up: the default tool state, `joined-room` sent, then a round
     * reset with no winner, reading the brush swatch colour `brushSwatch`.
     */
    constructor (canvas: DrawableCanvas, name: string, roomId: string, brushSwatch: string)
      requires canvas.Valid()
      modifies canvas`canDraw, canvas`context, canvas`surface, canvas.socket
      ensures Valid() && this.canvas == canvas && this.name == name
      ensures canvas.context == Assign(old(canvas.context), ToolStyle(brushSwatch, 1) + [(WidthKey, Num(1))])
      ensures canvas.socket.sent == old(canvas.socket.sent)
        + [JoinedRoom(name, roomId), UpdateContext(ToolStyle(brushSwatch, 1)), UpdateContext([(WidthKey, Num(1))])]
      ensures !canvas.canDraw && !isEraser && strokeWidth == 1 && sliderValue == 1
      ensures strokeColor == brushSwatch && canvasColor == DefaultCanvasColor
      ensures guessInput == "" && guesses == [] && word == ""
      ensures canvas.surface == old(canvas.surface)
      ensures ToolApplied()
    {
      this.canvas, this.socket, this.name := canvas, canvas.socket, name;
      strokeColor, canvasColor := DefaultStrokeColor, DefaultCanvasColor;
      isEraser, strokeWidth, sliderValue := false, 1, 1;
      guessInput, guesses, word := "", [], "";
      new;
      socket.Emit(JoinedRoom(name, roomId));
      ResetRound(None, None, brushSwatch);
    }

    /** Brush click or brush colour change: the brush with the swatch colour, mirrored to peers. */
    method SelectBrush(brushSwatch: string)
      requires Valid()
      modifies this`isEraser, this`strokeColor, canvas`context, canvas`surface, socket
      ensures !isEraser && strokeColor == brushSwatch
      ensures canvas.context == Assign(old(canvas.context), ToolStyle(brushSwatch, strokeWidth))
      ensures canvas.surface == old(canvas.surface)
      ensures socket.sent == old(socket.sent) + [UpdateContext(ToolStyle(brushSwatch, strokeWidth))]
      ensures ToolApplied()
    {
      isEraser := false;
      strokeColor := brushSwatch;
      canvas.SetContext(ToolStyle(strokeColor, strokeWidth));
      socket.Emit(UpdateContext(ToolStyle(strokeColor, strokeWidth)));
      ToolStyleSetsStroke(old(canvas.context), brushSwatch, strokeWidth);
    }

    /** Eraser click: stroke in the canvas colour at ten times the width, mirrored to peers. */
    method SelectEraser()
      requires Valid()
      modifies this`isEraser, canvas`context, canvas`surface, socket
      ensures isEraser
      ensures canvas.context == Assign(old(canvas.context), ToolStyle(canvasColor, EraserScale * strokeWidth))
      ensures canvas.surface == old(canvas.surface)
      ensures socket.sent == old(socket.sent) + [UpdateContext(ToolStyle(canvasColor, EraserScale * strokeWidth))]
      ensures ToolApplied()
    {
      isEraser := true;
      var style := ToolStyle(canvasColor, EraserScale * strokeWidth);
      canvas.SetContext(style);
      socket.Emit(UpdateContext(style));
      ToolStyleSetsStroke(old(canvas.context), canvasColor, EraserScale * strokeWidth);
    }

    /** The brush-size handler: the width from the slider, scaled for the eraser, mirrored to peers. */
    method ApplyBrushSize()
      requires Valid()
      modifies this`strokeWidth, canvas`context, canvas`surface, socket
      ensures strokeWidth == sliderValue
      ensures canvas.context == Assign(old(canvas.context), [(WidthKey, Num(ToolWidth()))])
      ensures canvas.surface == old(canvas.surface)
      ensures socket.sent == old(socket.sent) + [UpdateContext([(WidthKey, Num(ToolWidth()))])]
      ensures old(ToolApplied()) ==> ToolApplied()
      ensures WidthKey in canvas.context && canvas.context[WidthKey] == Num(ToolWidth())
    {
      strokeWidth := sliderValue;
      var style := if isEraser then [(WidthKey, Num(strokeWidth * EraserScale))] else [(WidthKey, Num(strokeWidth))];
      StyleOnlyTouchesNoPixels(style);
      canvas.SetContext(style);
      socket.Emit(UpdateContext(style));
      LastAssignmentWins(old(canvas.context), style, 0);
      UnnamedKeyUnchanged(old(canvas.context), style, StrokeKey);
    }

    /** The slider was moved to `value`. */
    method ChangeBrushSize(value: nat)
      requires Valid()
      modifies this`sliderValue, this`strokeWidth, canvas`context, canvas`surface, socket
      ensures sliderValue == value && strokeWidth == value
      ensures canvas.context == Assign(old(canvas.context), [(WidthKey, Num(ToolWidth()))])
      ensures canvas.surface == old(canvas.surface)
      ensures socket.sent == old(socket.sent) + [UpdateContext([(WidthKey, Num(ToolWidth()))])]
      ensures old(ToolApplied()) ==> ToolApplied()
    {
      sliderValue := value;
      ApplyBrushSize();
    }

    /**
     * Bucket colour change: the canvas colour becomes the swatch colour and the
     * surface is filled with it, locally and for peers; with the eraser active
     * the local stroke colour follows, and that update is not sent.
     */
    method ChangeBucket(bucketSwatch: string)
      requires Valid()
      modifies this`canvasColor, canvas`context, canvas`surface, socket
      ensures canvasColor == bucketSwatch
      ensures canvas.context == Assign(old(canvas.context),
        [(FillKey, Str(bucketSwatch))] + if isEraser then [(StrokeKey, Str(bucketSwatch))] else [])
      ensures canvas.surface == old(canvas.surface) + [FillAll(Str(bucketSwatch))]
      ensures socket.sent == old(socket.sent) + [UpdateContext([(FillKey, Str(bucketSwatch))])]
      ensures old(ToolApplied()) ==> ToolApplied()
    {
      canvasColor := bucketSwatch;
      var fill := [(FillKey, Str(canvasColor))];
      canvas.SetContext(fill);
      socket.Emit(UpdateContext(fill));
      assert fill[..0] == [];
      UnnamedKeyUnchanged(old(canvas.context), fill, StrokeKey);
      UnnamedKeyUnchanged(old(canvas.context), fill, WidthKey);
      if isEraser {
        var stroke := [(StrokeKey, Str(canvasColor))];
        ghost var mid := canvas.context;
        canvas.SetContext(stroke);
        assert stroke[..0] == [];
        AssignAppend(old(canvas.context), fill, stroke);
        UnnamedKeyUnchanged(mid, stroke, WidthKey);
      } else {
        assert fill + [] == fill;
      }
    }

    /** Clear button: the local surface is cleared and peers are told to clear theirs. */
    method ClickClear()
      requires Valid()
      modifies canvas`surface, socket
      ensures canvas.surface == old(canvas.surface) + [Clear]
      ensures socket.sent == old(socket.sent) + [UpdateContext([(ClearKey, Num(1))])]
    {
      canvas.ClearCanvas();
      socket.Emit(UpdateContext([(ClearKey, Num(1))]));
    }

    /** Ready button: the server is told this player is ready. */
    method ClickReady()
      modifies socket
      ensures socket.sent == old(socket.sent) + [Ready]
    {
      socket.Emit(Ready);
    }

    /** A `new-context` from the server: its attributes applied to the local canvas. */
    method OnNewContext(entries: seq<Entry>)
      requires Valid()
      modifies canvas`context, canvas`surface
      ensures canvas.context == Assign(old(canvas.context), entries)
      ensures canvas.surface == old(canvas.surface) + Effects(entries)
    {
      canvas.SetContext(entries);
    }

    /** A guess to show in the guess list. */
    method DisplayGuess(guesser: Option<string>, guess: string)
      modifies this`guesses
      ensures guesses == old(guesses) + [GuessLine(guesser, guess)]
    {
      guesses := guesses + [GuessLine(guesser, guess)];
    }

    /** Guess form submit with the input holding `input`: an empty input is ignored; otherwise sent, shown and cleared. */
    method SubmitGuess(input: string)
      modifies this`guesses, this`guessInput, socket
      ensures guessInput == ""
      ensures input == "" ==> guesses == old(guesses) && socket.sent == old(socket.sent)
      ensures input != "" ==>
        && socket.sent == old(socket.sent) + [MakeGuess(input)]
        && guesses == old(guesses) + [GuessLine(Some(name), input)]
    {
      guessInput := input;
      if guessInput == "" {
        return;
      }
      socket.Emit(MakeGuess(guessInput));
      DisplayGuess(Some(name), guessInput);
      guessInput := "";
    }

    /** `start-drawing`: this player may draw, on a cleared surface, with the word shown. */
    method StartRoundDrawing(secret: string)
      requires Valid()
      modifies canvas`canDraw, canvas`surface, this`guesses, this`word
      ensures canvas.canDraw
      ensures canvas.surface == old(canvas.surface) + [Clear]
      ensures guesses == [] && word == secret
    {
      canvas.canDraw := true;
      canvas.ClearCanvas();
      guesses := [];
      word := secret;
    }

    /** `start-guessing`: a cleared surface and guess list; the draw permission is left as it was. */
    method StartRoundGuessing()
      requires Valid()
      modifies canvas`surface, this`guesses, this`word
      ensures canvas.canDraw == old(canvas.canDraw)
      ensures canvas.surface == old(canvas.surface) + [Clear]
      ensures guesses == [] && word == ""
    {
      canvas.ClearCanvas();
      guesses := [];
      word := "";
    }

    /** Shows the winning word and announces the winner, when both are given. */
    method AnnounceWinner(winner: Option<string>, winningWord: Option<string>)
      modifies this`guesses, this`word
      ensures Truthy(winningWord) && Truthy(winner) ==>
        word == winningWord.value
        && guesses == old(guesses) + [WinnerLine(winner.value)]
      ensures !(Truthy(winningWord) && Truthy(winner)) ==> word == old(word) && guesses == old(guesses)
    {
      if Truthy(winningWord) && Truthy(winner) {
        word := winningWord.value;
        var line := WinnerLine(winner.value);
        DisplayGuess(line.guesser, line.text);
      }
    }

    /** Forbids drawing and restores the brush at width 1, locally and for peers. */
    method RestoreBrush(brushSwatch: string)
      requires Valid()
      modifies this`isEraser, this`strokeColor, this`strokeWidth, this`sliderValue
      modifies canvas`canDraw, canvas`context, canvas`surface, socket
      ensures !canvas.canDraw && !isEraser && strokeWidth == 1 && sliderValue == 1
      ensures strokeColor == brushSwatch
      ensures canvas.context == Assign(old(canvas.context), ToolStyle(brushSwatch, old(strokeWidth)) + [(WidthKey, Num(1))])
      ensures canvas.surface == old(canvas.surface)
      ensures socket.sent == old(socket.sent)
        + [UpdateContext(ToolStyle(brushSwatch, old(strokeWidth))), UpdateContext([(WidthKey, Num(1))])]
      ensures ToolApplied()
    {
      canvas.canDraw := false;
      ghost var before := canvas.context;
      ghost var sentBefore := socket.sent;
      SelectBrush(brushSwatch);
      ghost var brushed := canvas.context;
      sliderValue := 1;
      ApplyBrushSize();
      assert canvas.context == Assign(brushed, [(WidthKey, Num(1))]);
      AssignAppend(before, ToolStyle(brushSwatch, old(strokeWidth)), [(WidthKey, Num(1))]);
      assert socket.sent == sentBefore
        + [UpdateContext(ToolStyle(brushSwatch, old(strokeWidth)))] + [UpdateContext([(WidthKey, Num(1))])];
    }

    /**
     * `winner`, and the reset at start-up: the winner is announced only when
     * both the name and the word are given; then drawing is forbidden and the
     * brush is restored at width 1, locally and for peers.
     */
    method ResetRound(winner: Option<string>, winningWord: Option<string>, brushSwatch: string)
      requires Valid()
      modifies this`isEraser, this`strokeColor, this`strokeWidth, this`sliderValue, this`guesses, this`word
      modifies canvas`canDraw, canvas`context, canvas`surface, socket
      ensures Truthy(winningWord) && Truthy(winner) ==>
        word == winningWord.value && guesses == old(guesses) + [WinnerLine(winner.value)]
      ensures !(Truthy(winningWord) && Truthy(winner)) ==> word == old(word) && guesses == old(guesses)
      ensures !canvas.canDraw && !isEraser && strokeWidth == 1 && sliderValue == 1
      ensures strokeColor == brushSwatch
      ensures canvas.context == Assign(old(canvas.context), ToolStyle(brushSwatch, old(strokeWidth)) + [(WidthKey, Num(1))])
      ensures canvas.surface == old(canvas.surface)
      ensures socket.sent == old(socket.sent)
        + [UpdateContext(ToolStyle(brushSwatch, old(strokeWidth))), UpdateContext([(WidthKey, Num(1))])]
      ensures ToolApplied()
    {
      AnnounceWinner(winner, winningWord);
      RestoreBrush(brushSwatch);
    }
  }
}
