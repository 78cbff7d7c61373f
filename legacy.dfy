/** The legacy package canvas/canvas.go: the same handles as the current Canvas, but every
    fallible operation answers a bool, nothing drains the engine's diagnostic (it stays
    pending in the raster handle), integer arguments are Go `int`s converted to `size_t`,
    and the process-wide engine environment is started by New and shut down by Destroy. */
module Legacy {
  import opened Wrappers
  import opened GoInt
  import opened Colors
  import opened Drawing
  import opened Magick

  /** MagickWandGenesis / MagickWandTerminus. */
  class Environment {
    var instantiated: bool

    constructor ()
      ensures !instantiated
    {
      instantiated := false;
    }

    method Genesis()
      modifies this
      ensures instantiated
    {
      instantiated := true;
    }

    method Terminus()
      modifies this
      ensures !instantiated
    {
      instantiated := false;
    }
  }

  /** A Go `int` handed to a `size_t` parameter: negative values wrap to huge sizes. */
  function SizeT(n: int): (s: nat)
    requires -TwoTo63 <= n < TwoTo63
    ensures s < TwoTo64
    ensures n >= 0 ==> s == n
    ensures n < 0 ==> s == n + TwoTo64 && s >= TwoTo63
  {
    Wrap64(n)
  }

  /** A Go `int` is 64 bits wide. */
  predicate IsInt(n: int)
  {
    -TwoTo63 <= n < TwoTo63
  }

  class Canvas {
    const engine: Engine
    var wand: MagickWand?
    var fg: PixelWand?
    var bg: PixelWand?
    var drawing: DrawingWand?
    var fill: PixelWand?
    var stroke: PixelWand?

    ghost predicate Ready()
      reads this, wand
    {
      wand != null && fg != null && bg != null && drawing != null && fill != null && stroke != null
      && wand.live
      && fg != bg && fg != fill && fg != stroke && bg != fill && bg != stroke && fill != stroke
    }

    /** New (canvas/canvas.go:437-466): start the environment, allocate the handles and
        apply the defaults — background "#000000", a white opaque antialiased stroke of
        width 1 with round cap and join, and a mid-grey fill. Setting the background of the
        still empty raster fails, and its diagnostic is left pending. */
    constructor (e: Engine, env: Environment)
      modifies env
      ensures env.instantiated
      ensures engine == e && Ready()
      ensures fresh(wand) && fresh(fg) && fresh(bg) && fresh(drawing) && fresh(fill) && fresh(stroke)
      ensures wand.state == EmptyWand.(exception := NoImagesReason)
      ensures fg.color == Black && bg.color == Black && stroke.color == White && fill.color == MidGrey
      ensures drawing.ctx == DrawContext(
                e.drawDefaults.(strokeColor := White, strokeAntialias := MagickTrue, strokeWidth := 1.0,
                                strokeOpacity := 1.0, lineCap := RoundCap, lineJoin := RoundJoin,
                                fillColor := MidGrey),
                [], [])
      ensures BackgroundColor() == "#000000" && StrokeColor() == "#ffffff" && FillColor() == "#888888"
      ensures StrokeAntialias() && StrokeWidth() == 1.0 && StrokeOpacity() == 1.0
      ensures StrokeLineCap() == RoundCap && StrokeLineJoin() == RoundJoin
    {
      env.Genesis();
      var w := new MagickWand();
      var background := new PixelWand();
      var fillColor := new PixelWand();
      var strokeColor := new PixelWand();
      DefaultSpecs();
      NoneReadsAsBlack();
      var _ := background.SetColor("#000000");
      var _ := w.Call(e, Magick.SetBackgroundColor(background.color));
      var _ := strokeColor.SetColor("#ffffff");
      var _ := fillColor.SetColor("#888888");
      engine := e;
      wand := w;
      fg := new PixelWand();
      bg, fill, stroke := background, fillColor, strokeColor;
      drawing := new DrawingWand(
        e.drawDefaults.(strokeColor := White, strokeAntialias := MagickTrue, strokeWidth := 1.0,
                        strokeOpacity := 1.0, lineCap := RoundCap, lineJoin := RoundJoin,
                        fillColor := MidGrey));
    }

    /** Init (canvas/canvas.go:90-92). */
    method Init(env: Environment)
      modifies env
      ensures env.instantiated
    {
      env.Genesis();
    }

    /** Make one engine call: true exactly when the engine answers MagickTrue. */
    method Call(r: Request) returns (ok: bool)
      requires Ready()
      modifies wand
      ensures wand.live && (wand.state, ok) == Step(engine, old(wand.state), r)
    {
      ok := wand.Call(engine, r);
    }

    /** Open (canvas/canvas.go:95-101): no check of the path; the engine reads it. */
    method Open(path: string, disk: Disk) returns (ok: bool)
      requires Ready()
      modifies wand
      ensures wand.live && (wand.state, ok) == Step(engine, old(wand.state), ReadImage(ReadFrom(disk.files, path)))
      ensures !(path in disk.files && disk.files[path].Regular?) && "MagickReadImage" !in engine.faults ==>
                !ok && wand.state == old(wand.state).(exception := UnableToOpenReason)
    {
      ok := Call(ReadImage(ReadFrom(disk.files, path)));
    }

    /** Width and Height (canvas/canvas.go:104-111): the engine's size_t read as an int. */
    function Width(): (n: int)
      reads this, wand
      requires wand != null && Magick.Width(wand.state) < TwoTo64
      ensures Magick.Width(wand.state) <= MaxInt64 ==> n == Magick.Width(wand.state)
      ensures Magick.Width(wand.state) > MaxInt64 ==> n < 0
    {
      ToInt64(Magick.Width(wand.state))
    }

    function Height(): (n: int)
      reads this, wand
      requires wand != null && Magick.Height(wand.state) < TwoTo64
      ensures Magick.Height(wand.state) <= MaxInt64 ==> n == Magick.Height(wand.state)
      ensures Magick.Height(wand.state) > MaxInt64 ==> n < 0
    {
      ToInt64(Magick.Height(wand.state))
    }

    /** Write (canvas/canvas.go:114-121): merge the drawing, whatever that answers, then
        write; false exactly when the write fails. */
    method Write(path: string, disk: Disk) returns (ok: bool)
      requires Ready()
      modifies wand, disk
      ensures wand.live
      ensures var s1 := Step(engine, old(wand.state), DrawImage(drawing.ctx.commands)).0;
              (wand.state, ok) == Step(engine, s1, WriteImage)
              && disk.files == if ok then old(disk.files)[path := Regular(Decodable(wand.state.image.value))]
                               else old(disk.files)
    {
      Update();
      ok := disk.Write(engine, wand, path);
    }

    /** Resize (canvas/canvas.go:124-130). */
    method Resize(width: int, height: int) returns (ok: bool)
      requires Ready() && IsInt(width) && IsInt(height)
      modifies wand
      ensures wand.live && (wand.state, ok) == Step(engine, old(wand.state), ResizeImage(SizeT(width), SizeT(height)))
    {
      ok := Call(ResizeImage(SizeT(width), SizeT(height)));
    }

    /** AdaptiveResize (canvas/canvas.go:133-139). */
    method AdaptiveResize(width: int, height: int) returns (ok: bool)
      requires Ready() && IsInt(width) && IsInt(height)
      modifies wand
      ensures wand.live
      ensures (wand.state, ok) == Step(engine, old(wand.state), AdaptiveResizeImage(SizeT(width), SizeT(height)))
    {
      ok := Call(AdaptiveResizeImage(SizeT(width), SizeT(height)));
    }

    /** SetQuality (canvas/canvas.go:142-148). */
    method SetQuality(quality: int) returns (ok: bool)
      requires Ready() && IsInt(quality)
      modifies wand
      ensures wand.live && (wand.state, ok) == Step(engine, old(wand.state), SetCompressionQuality(SizeT(quality)))
    {
      ok := Call(SetCompressionQuality(SizeT(quality)));
    }

    /** Quality (canvas/canvas.go:151-153): 0 for a raster without an image. */
    function Quality(): (q: int)
      reads this, wand
      requires wand != null
      requires wand.state.image.Some? ==> wand.state.image.value.quality < TwoTo64
      ensures wand.state.image.None? ==> q == 0
      ensures wand.state.image.Some? && wand.state.image.value.quality <= MaxInt64 ==> q == wand.state.image.value.quality
    {
      if wand.state.image.Some? then ToInt64(wand.state.image.value.quality) else 0
    }

    /** SetBackgroundColor (canvas/canvas.go:167-174). */
    method SetBackgroundColor(color: string) returns (ok: bool)
      requires Ready()
      modifies bg, wand
      ensures wand.live
      ensures bg.color == if ParseColor(color).Some? then ParseColor(color).value else old(bg.color)
      ensures (wand.state, ok) == Step(engine, old(wand.state), Magick.SetBackgroundColor(bg.color))
    {
      var _ := bg.SetColor(color);
      ok := Call(Magick.SetBackgroundColor(bg.color));
    }

    /** BackgroundColor (canvas/canvas.go:177-179). */
    function BackgroundColor(): string
      reads this, bg
      requires bg != null
    {
      HexColor(bg.color)
    }

    /** SetStrokeAntialias and StrokeAntialias (canvas/canvas.go:182-193). */
    method SetStrokeAntialias(value: bool)
      requires Ready()
      modifies drawing
      ensures drawing.ctx == old(drawing.ctx).(current := old(drawing.ctx.current).(strokeAntialias := MagickBoolean(value)))
      ensures drawing.exception == old(drawing.exception)
      ensures StrokeAntialias() == value
    {
      drawing.SetCurrent(drawing.ctx.current.(strokeAntialias := MagickBoolean(value)));
    }

    function StrokeAntialias(): bool
      reads this, drawing
      requires drawing != null
    {
      IsMagickTrue(drawing.ctx.current.strokeAntialias)
    }

    /** SetStrokeWidth and StrokeWidth (canvas/canvas.go:196-203). */
    method SetStrokeWidth(value: real)
      requires Ready()
      modifies drawing
      ensures drawing.ctx == old(drawing.ctx).(current := old(drawing.ctx.current).(strokeWidth := value))
      ensures drawing.exception == old(drawing.exception)
      ensures StrokeWidth() == value
    {
      drawing.SetCurrent(drawing.ctx.current.(strokeWidth := value));
    }

    function StrokeWidth(): real
      reads this, drawing
      requires drawing != null
    {
      drawing.ctx.current.strokeWidth
    }

    /** SetStrokeOpacity and StrokeOpacity (canvas/canvas.go:206-213). */
    method SetStrokeOpacity(value: real)
      requires Ready()
      modifies drawing
      ensures drawing.ctx == old(drawing.ctx).(current := old(drawing.ctx.current).(strokeOpacity := value))
      ensures drawing.exception == old(drawing.exception)
      ensures StrokeOpacity() == value
    {
      drawing.SetCurrent(drawing.ctx.current.(strokeOpacity := value));
    }

    function StrokeOpacity(): real
      reads this, drawing
      requires drawing != null
    {
      drawing.ctx.current.strokeOpacity
    }

    /** SetStrokeLineCap and StrokeLineCap (canvas/canvas.go:216-223). */
    method SetStrokeLineCap(value: nat)
      requires Ready()
      modifies drawing
      ensures drawing.ctx == old(drawing.ctx).(current := old(drawing.ctx.current).(lineCap := value))
      ensures drawing.exception == old(drawing.exception)
      ensures StrokeLineCap() == value
    {
      drawing.SetCurrent(drawing.ctx.current.(lineCap := value));
    }

    function StrokeLineCap(): nat
      reads this, drawing
      requires drawing != null
    {
      drawing.ctx.current.lineCap
    }

    /** SetStrokeLineJoin and StrokeLineJoin (canvas/canvas.go:226-233). */
    method SetStrokeLineJoin(value: nat)
      requires Ready()
      modifies drawing
      ensures drawing.ctx == old(drawing.ctx).(current := old(drawing.ctx.current).(lineJoin := value))
      ensures drawing.exception == old(drawing.exception)
      ensures StrokeLineJoin() == value
    {
      drawing.SetCurrent(drawing.ctx.current.(lineJoin := value));
    }

    function StrokeLineJoin(): nat
      reads this, drawing
      requires drawing != null
    {
      drawing.ctx.current.lineJoin
    }

    /** SetFillColor and FillColor (canvas/canvas.go:242-250). */
    method SetFillColor(color: string)
      requires Ready()
      modifies fill, drawing
      ensures fill.color == if ParseColor(color).Some? then ParseColor(color).value else old(fill.color)
      ensures drawing.ctx == old(drawing.ctx).(current := old(drawing.ctx.current).(fillColor := fill.color))
      ensures drawing.exception == old(drawing.exception)
      ensures ParseColor(color).Some? ==> FillColor() == HexColor(ParseColor(color).value)
    {
      var _ := fill.SetColor(color);
      drawing.SetCurrent(drawing.ctx.current.(fillColor := fill.color));
    }

    function FillColor(): string
      reads this, fill
      requires fill != null
    {
      HexColor(fill.color)
    }

    /** SetStrokeColor and StrokeColor (canvas/canvas.go:253-261). */
    method SetStrokeColor(color: string)
      requires Ready()
      modifies stroke, drawing
      ensures stroke.color == if ParseColor(color).Some? then ParseColor(color).value else old(stroke.color)
      ensures drawing.ctx == old(drawing.ctx).(current := old(drawing.ctx.current).(strokeColor := stroke.color))
      ensures drawing.exception == old(drawing.exception)
      ensures ParseColor(color).Some? ==> StrokeColor() == HexColor(ParseColor(color).value)
    {
      var _ := stroke.SetColor(color);
      drawing.SetCurrent(drawing.ctx.current.(strokeColor := stroke.color));
    }

    function StrokeColor(): string
      reads this, stroke
      requires stroke != null
    {
      HexColor(stroke.color)
    }

    /** Circle (canvas/canvas.go:264-266). */
    method Circle(radius: real)
      requires Ready()
      modifies drawing
      ensures drawing.ctx == Emit(old(drawing.ctx), Shape.Circle(0.0, 0.0, radius, 0.0))
      ensures drawing.exception == old(drawing.exception)
    {
      drawing.EmitShape(Shape.Circle(0.0, 0.0, radius, 0.0));
    }

    /** Rectangle (canvas/canvas.go:269-271). */
    method Rectangle(x: real, y: real)
      requires Ready()
      modifies drawing
      ensures drawing.ctx == Emit(old(drawing.ctx), Shape.Rectangle(0.0, 0.0, x, y))
      ensures drawing.exception == old(drawing.exception)
    {
      drawing.EmitShape(Shape.Rectangle(0.0, 0.0, x, y));
    }

    /** Translate (canvas/canvas.go:274-276). */
    method Translate(x: real, y: real)
      requires Ready()
      modifies drawing
      ensures drawing.ctx == old(drawing.ctx).(current := old(drawing.ctx.current).(transform := old(drawing.ctx.current.transform) + [Transform.Translate(x, y)]))
      ensures drawing.exception == old(drawing.exception)
    {
      drawing.SetCurrent(drawing.ctx.current.(transform := drawing.ctx.current.transform + [Transform.Translate(x, y)]));
    }

    /** Scale (canvas/canvas.go:279-281). */
    method Scale(x: real, y: real)
      requires Ready()
      modifies drawing
      ensures drawing.ctx == old(drawing.ctx).(current := old(drawing.ctx.current).(transform := old(drawing.ctx.current.transform) + [Transform.Scale(x, y)]))
      ensures drawing.exception == old(drawing.exception)
    {
      drawing.SetCurrent(drawing.ctx.current.(transform := drawing.ctx.current.transform + [Transform.Scale(x, y)]));
    }

    /** Line (canvas/canvas.go:284-286). */
    method Line(x: real, y: real)
      requires Ready()
      modifies drawing
      ensures drawing.ctx == Emit(old(drawing.ctx), Shape.Line(0.0, 0.0, x, y))
      ensures drawing.exception == old(drawing.exception)
    {
      drawing.EmitShape(Shape.Line(0.0, 0.0, x, y));
    }

    /** Rotate (canvas/canvas.go:296-299), with the angle already in degrees. */
    method Rotate(degrees: real)
      requires Ready()
      modifies drawing
      ensures drawing.ctx == old(drawing.ctx).(current := old(drawing.ctx.current).(transform := old(drawing.ctx.current.transform) + [Transform.Rotate(degrees)]))
      ensures drawing.exception == old(drawing.exception)
    {
      drawing.SetCurrent(drawing.ctx.current.(transform := drawing.ctx.current.transform + [Transform.Rotate(degrees)]));
    }

    /** Ellipse (canvas/canvas.go:302-304). */
    method Ellipse(a: real, b: real)
      requires Ready()
      modifies drawing
      ensures drawing.ctx == Emit(old(drawing.ctx), Shape.Ellipse(0.0, 0.0, a, b, 0.0, 360.0))
      ensures drawing.exception == old(drawing.exception)
    {
      drawing.EmitShape(Shape.Ellipse(0.0, 0.0, a, b, 0.0, 360.0));
    }

    /** PushDrawing (canvas/canvas.go:307-313). */
    method PushDrawing() returns (ok: bool)
      requires Ready()
      modifies drawing
      ensures ok && drawing.ctx == Push(old(drawing.ctx)) && drawing.exception == old(drawing.exception)
    {
      ok := drawing.PushDrawingWand();
    }

    /** PopDrawing (canvas/canvas.go:316-322): false exactly when nothing was saved; the
        raster handle is not touched. */
    method PopDrawing() returns (ok: bool)
      requires Ready()
      modifies drawing
      ensures ok <==> old(drawing.ctx).saved != []
      ensures ok ==> drawing.ctx == Pop(old(drawing.ctx)).value && drawing.exception == old(drawing.exception)
      ensures !ok ==> drawing.ctx == old(drawing.ctx) && drawing.exception == UnbalancedPop
    {
      ok := drawing.PopDrawingWand();
    }

    /** Update (canvas/canvas.go:325-327): the engine's answer is dropped. */
    method Update()
      requires Ready()
      modifies wand
      ensures wand.live && wand.state == Step(engine, old(wand.state), DrawImage(drawing.ctx.commands)).0
    {
      var _ := Call(DrawImage(drawing.ctx.commands));
    }

    /** Destroy (canvas/canvas.go:330-335): release the raster handle when there is one,
        and shut the environment down in every case. */
    method Destroy(env: Environment)
      requires wand != null ==> wand.live
      modifies wand, env
      ensures wand != null ==> !wand.live && wand.state == old(wand.state)
      ensures !env.instantiated
    {
      if wand != null {
        wand.Destroy();
      }
      env.Terminus();
    }

    /** Blank (canvas/canvas.go:338-344). */
    method Blank(width: int, height: int) returns (ok: bool)
      requires Ready() && IsInt(width) && IsInt(height)
      modifies wand
      ensures wand.live
      ensures (wand.state, ok) == Step(engine, old(wand.state), NewImage(SizeT(width), SizeT(height), bg.color))
    {
      ok := Call(NewImage(SizeT(width), SizeT(height), bg.color));
    }

    /** Blur (canvas/canvas.go:347-353). */
    method Blur(sigma: real) returns (ok: bool)
      requires Ready()
      modifies wand
      ensures wand.live && (wand.state, ok) == Step(engine, old(wand.state), BlurImage(sigma))
    {
      ok := Call(BlurImage(sigma));
    }

    /** AdaptiveBlur (canvas/canvas.go:356-362). */
    method AdaptiveBlur(sigma: real) returns (ok: bool)
      requires Ready()
      modifies wand
      ensures wand.live && (wand.state, ok) == Step(engine, old(wand.state), AdaptiveBlurImage(sigma))
    {
      ok := Call(AdaptiveBlurImage(sigma));
    }

    /** AddNoise (canvas/canvas.go:365-371). */
    method AddNoise() returns (ok: bool)
      requires Ready()
      modifies wand
      ensures wand.live && (wand.state, ok) == Step(engine, old(wand.state), AddNoiseImage)
    {
      ok := Call(AddNoiseImage);
    }

    /** Chop (canvas/canvas.go:374-380). */
    method Chop(x: int, y: int, width: int, height: int) returns (ok: bool)
      requires Ready() && IsInt(width) && IsInt(height)
      modifies wand
      ensures wand.live
      ensures (wand.state, ok) == Step(engine, old(wand.state), ChopImage(SizeT(width), SizeT(height), x, y))
    {
      ok := Call(ChopImage(SizeT(width), SizeT(height), x, y));
    }

    /** Crop (canvas/canvas.go:383-389). */
    method Crop(x: int, y: int, width: int, height: int) returns (ok: bool)
      requires Ready() && IsInt(width) && IsInt(height)
      modifies wand
      ensures wand.live
      ensures (wand.state, ok) == Step(engine, old(wand.state), CropImage(SizeT(width), SizeT(height), x, y))
    {
      ok := Call(CropImage(SizeT(width), SizeT(height), x, y));
    }

    /** SetBrightness (canvas/canvas.go:392-404). */
    method SetBrightness(factor: real) returns (ok: bool)
      requires Ready()
      modifies wand
      ensures wand.live
      ensures (wand.state, ok) == Step(engine, old(wand.state), ModulateImage(ModulationPercent(factor), 100.0, 100.0))
    {
      ok := Call(ModulateImage(ModulationPercent(factor), 100.0, 100.0));
    }

    /** SetSaturation (canvas/canvas.go:407-419). */
    method SetSaturation(factor: real) returns (ok: bool)
      requires Ready()
      modifies wand
      ensures wand.live
      ensures (wand.state, ok) == Step(engine, old(wand.state), ModulateImage(100.0, ModulationPercent(factor), 100.0))
    {
      ok := Call(ModulateImage(100.0, ModulationPercent(factor), 100.0));
    }

    /** SetHue (canvas/canvas.go:422-434). */
    method SetHue(factor: real) returns (ok: bool)
      requires Ready()
      modifies wand
      ensures wand.live
      ensures (wand.state, ok) == Step(engine, old(wand.state), ModulateImage(100.0, 100.0, ModulationPercent(factor)))
    {
      ok := Call(ModulateImage(100.0, 100.0, ModulationPercent(factor)));
    }
  }
}
