/** The engine's drawing wand as the façade sees it: a current record of stroke, fill and
    text settings with a coordinate transform, a stack of saved records
    (PushDrawingWand / PopDrawingWand), and the list of drawing commands emitted so far.
    Each command remembers the settings current when it was emitted, which is what the
    engine renders it with when the wand is merged into the raster. */
module Drawing {
  import opened Wrappers
  import opened Colors

  /** MagickBooleanType. */
  const MagickFalse: nat := 0
  const MagickTrue: nat := 1

  /** `magickBoolean` (canvas.go:107-112, canvas/canvas.go:82-87). */
  function MagickBoolean(b: bool): (v: nat)
    ensures v == MagickTrue || v == MagickFalse
  {
    if b then MagickTrue else MagickFalse
  }

  /** How the façade reads a MagickBooleanType back: only MagickTrue counts as true
      (canvas.go:424-430, canvas/canvas.go:187-193). */
  predicate IsMagickTrue(v: nat)
  {
    v == MagickTrue
  }

  /** The mapping is one-to-one and reading it back gives the original flag. */
  lemma MagickBooleanRoundTrip(b: bool, c: bool)
    ensures IsMagickTrue(MagickBoolean(b)) == b
    ensures MagickBoolean(b) == MagickBoolean(c) <==> b == c
    ensures (MagickBoolean(b) == MagickTrue) <==> b
  {
  }

  /** LineCap and LineJoin values. */
  const ButtCap: nat := 1
  const RoundCap: nat := 2
  const SquareCap: nat := 3
  const MiterJoin: nat := 1
  const RoundJoin: nat := 2
  const BevelJoin: nat := 3

  /** AlignType values. */
  const UndefinedAlign: nat := 0
  const LeftAlign: nat := 1
  const CenterAlign: nat := 2
  const RightAlign: nat := 3

  datatype Transform = Translate(tx: real, ty: real) | Scale(sx: real, sy: real) | Rotate(degrees: real)

  datatype DrawState = DrawState(
    strokeColor: Color,
    strokeWidth: real,
    strokeOpacity: real,
    lineCap: nat,
    lineJoin: nat,
    strokeAntialias: nat,
    fillColor: Color,
    font: string,
    family: string,
    fontSize: real,
    fontWeight: nat,
    alignment: nat,
    textAntialias: nat,
    kerning: real,
    underColor: Color,
    transform: seq<Transform>)

  /** The shapes the façade emits, with the arguments it passes to the engine. */
  datatype Shape =
    | Circle(ox: real, oy: real, px: real, py: real)
    | Rectangle(x1: real, y1: real, x2: real, y2: real)
    | Line(sx: real, sy: real, ex: real, ey: real)
    | Ellipse(cx: real, cy: real, rx: real, ry: real, start: real, end: real)
    | Annotation(x: real, y: real, text: string)

  datatype DrawCommand = Draw(shape: Shape, settings: DrawState)

  datatype DrawContext = DrawContext(current: DrawState, saved: seq<DrawState>, commands: seq<DrawCommand>)

  /** The diagnostic the engine records for a pop with nothing saved. */
  const UnbalancedPop: string := "UnbalancedGraphicContextPushPop"

  /** PushDrawingWand: save a copy of the current settings. */
  function Push(d: DrawContext): (r: DrawContext)
    ensures r.current == d.current && r.commands == d.commands
    ensures |r.saved| == |d.saved| + 1 && r.saved[..|d.saved|] == d.saved && r.saved[|d.saved|] == d.current
  {
    d.(saved := d.saved + [d.current])
  }

  /** PopDrawingWand: restore the most recent save and discard it; refused on an empty stack. */
  function Pop(d: DrawContext): (r: Option<DrawContext>)
    ensures r.None? <==> d.saved == []
    ensures r.Some? ==>
              r.value.saved == d.saved[..|d.saved| - 1]
              && r.value.current == d.saved[|d.saved| - 1]
              && r.value.commands == d.commands
  {
    if d.saved == [] then None
    else Some(d.(current := d.saved[|d.saved| - 1], saved := d.saved[..|d.saved| - 1]))
  }

  /** Emit a shape drawn with the current settings. */
  function Emit(d: DrawContext, s: Shape): (r: DrawContext)
    ensures r.current == d.current && r.saved == d.saved
    ensures r.commands == d.commands + [Draw(s, d.current)]
  {
    d.(commands := d.commands + [Draw(s, d.current)])
  }

  /** Whatever is done to the current settings and to the commands between a push and its
      pop, the pop brings back exactly the settings and the stack of before the push, and
      keeps every command emitted in between. */
  lemma PushPopRestores(d: DrawContext, between: DrawContext)
    requires between.saved == Push(d).saved
    ensures Pop(between).Some?
    ensures Pop(between).value.current == d.current && Pop(between).value.saved == d.saved
    ensures Pop(between).value.commands == between.commands
  {
    assert between.saved[..|between.saved| - 1] == d.saved;
  }

  /** Pops match pushes last-in first-out: two pushes and two pops restore the outer state. */
  lemma NestedPushPop(d: DrawContext, inner: DrawState, afterInner: DrawState)
    ensures var p2 := Pop(Push(Push(d).(current := inner)).(current := afterInner));
            p2.Some? && p2.value.current == inner
            && Pop(p2.value.(current := afterInner)).Some?
            && Pop(p2.value.(current := afterInner)).value.current == d.current
            && Pop(p2.value.(current := afterInner)).value.saved == d.saved
  {
    var p1 := Push(d).(current := inner);
    PushPopRestores(p1, Push(p1).(current := afterInner));
    var p2 := Pop(Push(p1).(current := afterInner)).value;
    PushPopRestores(d, p2.(current := afterInner));
  }

  class DrawingWand {
    var ctx: DrawContext
    /** The wand's own pending diagnostic (DrawGetException). */
    var exception: string

    /** NewDrawingWand: the engine's initial settings, nothing saved, nothing drawn. */
    constructor (init: DrawState)
      ensures ctx == DrawContext(init, [], []) && exception == ""
    {
      ctx := DrawContext(init, [], []);
      exception := "";
    }

    method PushDrawingWand() returns (ok: bool)
      modifies this
      ensures ok && ctx == Push(old(ctx)) && exception == old(exception)
    {
      ctx := Push(ctx);
      ok := true;
    }

    method PopDrawingWand() returns (ok: bool)
      modifies this
      ensures ok == (old(ctx).saved != [])
      ensures ok ==> ctx == Pop(old(ctx)).value && exception == old(exception)
      ensures !ok ==> ctx == old(ctx) && exception == UnbalancedPop
    {
      var r := Pop(ctx);
      if r.None? {
        exception := UnbalancedPop;
        ok := false;
      } else {
        ctx := r.value;
        ok := true;
      }
    }

    /** Any Draw* setter: replace the current settings. */
    method SetCurrent(s: DrawState)
      modifies this
      ensures ctx == old(ctx).(current := s) && exception == old(exception)
    {
      ctx := ctx.(current := s);
    }

    method EmitShape(s: Shape)
      modifies this
      ensures ctx == Emit(old(ctx), s) && exception == old(exception)
    {
      ctx := Emit(ctx, s);
    }
  }
}
