/** The Canvas of canvas.go: one raster handle, four colour handles (foreground,
    background, fill, stroke) and one drawing handle, plus the informational file name
    and the optional text-properties record that text.go keeps on it.

    Every method of canvas.go has a value receiver: it works on a copy of the struct that
    shares the handles. What a method does to a handle is therefore seen by the caller,
    and what it assigns to a field of the struct (`self.filename` at canvas.go:127,
    `self.wand` at canvas.go:283 and canvas.go:580) is not. The methods below change the
    handles and never the fields; where the working copy's field matters (Thumbnail's
    replacement wand) it is returned as an out-parameter. */
module Canvas {
  import opened Wrappers
  import opened GoInt
  import opened Strconv
  import opened Colors
  import opened Drawing
  import opened Magick
  import opened Failures
  import opened Metadata
  import opened Orientation
  import opened Thumbnail
  import opened TextRecord

  const NothingToDestroy: Error := Errorf("Nothing to destroy")

  /** The raster state of a canvas made by New and cleared by SetBackgroundColor("none"),
      blanked to the size of `src` and with `src` composited at the origin (Clone,
      canvas.go:245-255). */
  function ClonedState(e: Engine, src: WandState): WandState
  {
    var c0 := Checked(e, EmptyWand, Magick.SetBackgroundColor(Transparent), "Could not set background color: ").0;
    var c1 := Checked(e, c0, NewImage(Magick.Width(src), Magick.Height(src), Transparent), "Could not create image: ").0;
    Checked(e, c1, CompositeImage(src.image, 0, 0), "Could not append image: ").0
  }

  /** A clone has the source's dimensions and a transparent background, and its pixels are
      exactly the source composited at (0, 0) over a blank, whenever the engine accepts
      blanks and composites; the source state is only read. */
  lemma CloneSameSize(e: Engine, src: WandState)
    requires src.image.Some? && Magick.Width(src) > 0 && Magick.Height(src) > 0
    requires "MagickNewImage" !in e.faults && "MagickCompositeImage" !in e.faults
    ensures var c := ClonedState(e, src);
            c.image.Some? && Magick.Width(c) == Magick.Width(src) && Magick.Height(c) == Magick.Height(src)
            && c.image.value.background == Transparent
            && c.image.value.history == [Composited(src.image.value, 0, 0)]
            && c.exception == ""
  {
    var c0 := Checked(e, EmptyWand, Magick.SetBackgroundColor(Transparent), "Could not set background color: ").0;
    assert c0 == EmptyWand;
    var c1 := Checked(e, c0, NewImage(Magick.Width(src), Magick.Height(src), Transparent), "Could not create image: ").0;
    CompositeKeepsDimensions(e, c1, src.image, 0, 0);
  }

  class Canvas {
    /** The process-wide engine every handle of this canvas talks to. */
    const engine: Engine
    var wand: MagickWand?
    var fg: PixelWand?
    var bg: PixelWand?
    var drawing: DrawingWand?
    var fill: PixelWand?
    var stroke: PixelWand?
    var filename: string
    /** Not declared in the struct at canvas.go:75-89, but read and written by text.go. */
    var text: TextProperties?

    /** Every handle allocated, the raster handle not yet released, and four distinct
        colour handles. */
    ghost predicate Ready()
      reads this, wand
    {
      wand != null && fg != null && bg != null && drawing != null && fill != null && stroke != null
      && wand.live
      && fg != bg && fg != fill && fg != stroke && bg != fill && bg != stroke && fill != stroke
    }

    /** `Canvas{}`: the zero value, with every handle nil. */
    constructor Zero(e: Engine)
      ensures engine == e && filename == "" && text == null
      ensures wand == null && fg == null && bg == null && drawing == null && fill == null && stroke == null
    {
      engine := e;
      wand, fg, bg, drawing, fill, stroke := null, null, null, null, null, null;
      filename := "";
      text := null;
    }

    /** New (canvas.go:699-726): fresh handles and the façade's defaults — background
        "none", a white opaque antialiased stroke of width 1 with round cap and join, and
        a mid-grey fill. */
    constructor (e: Engine)
      ensures engine == e && Ready() && filename == "" && text == null
      ensures fresh(wand) && fresh(fg) && fresh(bg) && fresh(drawing) && fresh(fill) && fresh(stroke)
      ensures wand.state == EmptyWand
      ensures fg.color == Black && bg.color == Transparent && stroke.color == White && fill.color == MidGrey
      ensures drawing.ctx == DrawContext(
                e.drawDefaults.(strokeColor := White, strokeAntialias := MagickTrue, strokeWidth := 1.0,
                                strokeOpacity := 1.0, lineCap := RoundCap, lineJoin := RoundJoin,
                                fillColor := MidGrey),
                [], [])
      ensures BackgroundColor() == "#000000" && StrokeColor() == "#ffffff" && FillColor() == "#888888"
      ensures StrokeAntialias() && StrokeWidth() == 1.0 && StrokeOpacity() == 1.0
      ensures StrokeLineCap() == RoundCap && StrokeLineJoin() == RoundJoin
    {
      var w := new MagickWand();
      var background := new PixelWand();
      var fillColor := new PixelWand();
      var strokeColor := new PixelWand();
      DefaultSpecs();
      NoneReadsAsBlack();
      var _ := background.SetColor("none");
      // SetBackgroundColor("none") on the still empty raster: the engine refuses it for
      // want of an image and the diagnostic is drained into an error New ignores.
      var ok := w.Call(e, Magick.SetBackgroundColor(background.color));
      if !ok {
        var _ := w.TakeException();
      }
      var _ := strokeColor.SetColor("#ffffff");
      var _ := fillColor.SetColor("#888888");
      engine := e;
      wand := w;
      fg := new PixelWand();
      bg, fill, stroke := background, fillColor, strokeColor;
      drawing := new DrawingWand(
        e.drawDefaults.(strokeColor := White, strokeAntialias := MagickTrue, strokeWidth := 1.0,
                        strokeOpacity := 1.0, lineCap := RoundCap, lineJoin := RoundJoin,
                        fillColor := MidGrey));
      filename := "";
      text := null;
    }

    /** Make one engine call and, when the engine answers MagickFalse, return the drained
        diagnostic behind `prefix`: the shape of every error-returning method below. */
    method Check(r: Request, prefix: string) returns (err: Option<Error>)
      requires Ready()
      modifies wand
      ensures wand.live && (wand.state, err) == Checked(engine, old(wand.state), r, prefix)
    {
      var ok := wand.Call(engine, r);
      if ok {
        err := None;
      } else {
        var message := Error();
        err := Some(Errorf(prefix + message.message));
      }
    }

    /** Error (canvas.go:210-215): the pending diagnostic, which reading clears. */
    method Error() returns (err: Error)
      requires Ready()
      modifies wand
      ensures wand.live && err == Errorf(old(wand.state).exception)
      ensures wand.state == old(wand.state).(exception := "")
    {
      var message := wand.TakeException();
      err := Errorf(message);
    }

    /** Open (canvas.go:115-129): a path that does not exist returns os.Stat's error and a
        directory is refused, both before the engine is asked to read; a read failure
        returns the engine's drained diagnostic. The file name is recorded only on the
        receiver's copy, so `filename` never changes. */
    method Open(path: string, disk: Disk) returns (err: Option<Error>)
      requires Ready()
      modifies wand
      ensures wand.live
      ensures path !in disk.files ==>
                err == Some(PathError("stat", path, NotExist)) && wand.state == old(wand.state)
      ensures path in disk.files && disk.files[path].Directory? ==>
                err == Some(Errorf("Could not open file \"" + path + "\": it's a directory!"))
                && wand.state == old(wand.state)
      ensures path in disk.files && disk.files[path].Regular? ==>
                (wand.state, err) == Checked(engine, old(wand.state), ReadImage(disk.files[path].content),
                                             "Could not open image \"" + path + "\": ")
    {
      if path !in disk.files {
        return Some(PathError("stat", path, NotExist));
      }
      if disk.files[path].Directory? {
        return Some(Errorf("Could not open file \"" + path + "\": it's a directory!"));
      }
      err := Check(ReadImage(disk.files[path].content), "Could not open image \"" + path + "\": ");
    }

    /** AutoOrientate (canvas.go:132-182): read the tag, run the corrections its code
        selects, set the orientation field to top-left and write the tag back. */
    method AutoOrientate() returns (err: Option<Error>)
      requires Ready()
      modifies wand
      ensures wand.live && (wand.state, err) == AutoOrientateSpec(engine, old(wand.state))
    {
      ghost var s := wand.state;
      var data := Metadata();
      var raw := if OrientationKey in data then data[OrientationKey] else "";
      assert raw == RawTag(s);
      DispatchIff(raw);
      var parsed := Atoi(raw);
      if parsed.Failure? {
        return Some(Num(parsed.error));
      }
      var code := Wrap64(parsed.value);
      ghost var s0 := wand.state;
      var ignored: Option<Error>;
      if code == 1 {
        RunShort(engine, s0, FlopImage, FlopImage);
      } else if code == 2 {
        ignored := Flop();
        RunShort(engine, s0, FlopImage, FlopImage);
      } else if code == 3 {
        ignored := RotateCanvas(2);
        RunShort(engine, s0, RotateImage(2), RotateImage(2));
      } else if code == 4 {
        ignored := Flip();
        RunShort(engine, s0, FlipImage, FlipImage);
      } else if code == 5 {
        ignored := Flip();
        ignored := RotateCanvas(-1);
        RunShort(engine, s0, FlipImage, RotateImage(-1));
      } else if code == 6 {
        ignored := RotateCanvas(-1);
        RunShort(engine, s0, RotateImage(-1), RotateImage(-1));
      } else if code == 7 {
        ignored := Flop();
        ignored := RotateCanvas(-1);
        RunShort(engine, s0, FlopImage, RotateImage(-1));
      } else if code == 8 {
        ignored := RotateCanvas(1);
        RunShort(engine, s0, RotateImage(1), RotateImage(1));
      } else {
        return Some(NoOrientationData);
      }
      assert wand.state == RunIgnoringErrors(engine, s0, Dispatch(raw).value);
      err := Check(SetOrientation(Code(TopLeft)), "Could not orientate photo: ");
      if err.None? {
        ignored := SetMetadata(OrientationKey, TopLeftTag);
      }
    }

    /** Metadata (canvas.go:185-207): every listed property, keys and values trimmed of
        spaces, a later key overwriting an earlier one that trims the same. */
    method Metadata() returns (data: map<string, string>)
      requires Ready()
      modifies wand
      ensures wand.live && wand.state == AfterMetadata(old(wand.state))
      ensures data == MetadataOf(old(wand.state))
    {
      ghost var props := if wand.state.image.Some? then wand.state.image.value.props else [];
      var names := wand.GetImageProperties();
      data := map[];
      var i := 0;
      while i < |names|
        invariant 0 <= i <= |names|
        invariant wand.live && wand.state == AfterMetadata(old(wand.state))
        invariant names == Names(props) && (names != [] ==> wand.state.image.Some?)
        invariant wand.state.image.Some? ==> wand.state.image.value.props == props
        invariant data == Collect(props, names, i)
      {
        var value := wand.GetImageProperty(names[i]);
        data := data[GoStrings.Trim(names[i]) := GoStrings.Trim(value)];
        i := i + 1;
      }
    }

    /** SetMetadata (canvas.go:218-224). */
    method SetMetadata(key: string, value: string) returns (err: Option<Error>)
      requires Ready()
      modifies wand
      ensures wand.live && (wand.state, err) == Checked(engine, old(wand.state), SetProperty(key, value), "Could not set metadata: ")
    {
      err := Check(SetProperty(key, value), "Could not set metadata: ");
    }

    /** Flop (canvas.go:227-233). */
    method Flop() returns (err: Option<Error>)
      requires Ready()
      modifies wand
      ensures wand.live && (wand.state, err) == Checked(engine, old(wand.state), FlopImage, Orientation.Prefix(FlopImage))
    {
      err := Check(FlopImage, "Could not flop image: ");
    }

    /** Flip (canvas.go:236-242); its message reuses Flop's wording. */
    method Flip() returns (err: Option<Error>)
      requires Ready()
      modifies wand
      ensures wand.live && (wand.state, err) == Checked(engine, old(wand.state), FlipImage, Orientation.Prefix(FlipImage))
    {
      err := Check(FlipImage, "Could not flop image: ");
    }

    /** Clone (canvas.go:245-255): a fresh canvas with fresh handles whose raster is a
        transparent blank of this canvas's size with this raster composited at (0, 0).
        This canvas is only read. */
    method Clone() returns (clone: Canvas)
      requires Ready()
      ensures fresh(clone) && clone.Ready() && clone.engine == engine
      ensures fresh(clone.wand) && fresh(clone.fg) && fresh(clone.bg) && fresh(clone.drawing)
              && fresh(clone.fill) && fresh(clone.stroke)
      ensures clone.wand.state == ClonedState(engine, wand.state)
      ensures clone.text == null && clone.filename == ""
      ensures clone.stroke.color == White && clone.fill.color == MidGrey
      ensures clone.drawing.ctx == DrawContext(
                engine.drawDefaults.(strokeColor := White, strokeAntialias := MagickTrue, strokeWidth := 1.0,
                                     strokeOpacity := 1.0, lineCap := RoundCap, lineJoin := RoundJoin,
                                     fillColor := MidGrey),
                [], [])
    {
      clone := new Canvas(engine);
      var _ := clone.SetBackgroundColor("none");
      var _ := clone.Blank(Width(), Height());
      var _ := clone.AppendCanvas(this, 0, 0);
    }

    /** Thumbnail (canvas.go:258-301). In the pad branch the caller's raster handle is
        released and the replacement is adopted only by the receiver's copy; `working` is
        the handle the method finished on, which the caller cannot reach. */
    method Thumbnail(width: nat, height: nat) returns (err: Option<Error>, working: MagickWand)
      requires Ready() && width > 0 && height > 0
      modifies wand
      ensures (working.state, err) == ThumbnailSpec(engine, old(wand.state), width, height)
      ensures working.live
      ensures PadsUp(old(Magick.Width(wand.state)), old(Magick.Height(wand.state)), width, height) ==>
                fresh(working) && !wand.live && wand.state == old(wand.state)
      ensures !PadsUp(old(Magick.Width(wand.state)), old(Magick.Height(wand.state)), width, height) ==>
                working == wand
    {
      var W, H := Width(), Height();
      if PadsUp(W, H, width, height) {
        var replacement := new Canvas(engine);
        var _ := replacement.SetBackgroundColor("none");
        var m := PadSide(width, height);
        var _ := replacement.Blank(m, m);
        var _ := replacement.AppendCanvas(this, CentreOffset(width, W), CentreOffset(height, H));
        wand.Destroy();
        working := new MagickWand.Clone(replacement.wand);
      } else {
        var (rw, rh) := ResizeTarget(W, H, width, height);
        err := Resize(rw, rh);
        working := wand;
        if err.Some? {
          return;
        }
      }
      var ok := working.Call(engine, CropImage(width, height, CentreOffset(Magick.Width(working.state), width),
                                                CentreOffset(Magick.Height(working.state), height)));
      if ok {
        err := None;
      } else {
        var message := working.TakeException();
        err := Some(Errorf("Could not crop: " + message));
      }
    }

    /** The corrected Thumbnail: the receiver is the canvas itself, so the handle the
        method finishes on is stored back and the caller sees the thumbnail; the pad
        branch composites at the offsets that keep the source centred after the crop.
        The other handles and fields are kept. */
    method ThumbnailInPlace(width: nat, height: nat) returns (err: Option<Error>)
      requires Ready() && width > 0 && height > 0
      modifies this, wand
      ensures Ready()
      ensures (wand.state, err) == CentredThumbnailSpec(engine, old(wand.state), width, height)
      ensures fg == old(fg) && bg == old(bg) && drawing == old(drawing) && fill == old(fill)
              && stroke == old(stroke) && filename == old(filename) && text == old(text)
      ensures PadsUp(old(Magick.Width(wand.state)), old(Magick.Height(wand.state)), width, height) ==>
                fresh(wand) && !old(wand).live
      ensures !PadsUp(old(Magick.Width(wand.state)), old(Magick.Height(wand.state)), width, height) ==>
                wand == old(wand)
    {
      var W, H := Width(), Height();
      if PadsUp(W, H, width, height) {
        ReplaceWithCentredBackdrop(width, height);
      } else {
        var (rw, rh) := ResizeTarget(W, H, width, height);
        err := Resize(rw, rh);
        if err.Some? {
          return;
        }
      }
      var ok := wand.Call(engine, CropImage(width, height, CentreOffset(Magick.Width(wand.state), width),
                                             CentreOffset(Magick.Height(wand.state), height)));
      if ok {
        err := None;
      } else {
        var message := wand.TakeException();
        err := Some(Errorf("Could not crop: " + message));
      }
    }

    /** The pad branch of ThumbnailInPlace: the raster handle is released and replaced by
        a copy of a new canvas's corrected backdrop. */
    method ReplaceWithCentredBackdrop(width: nat, height: nat)
      requires Ready()
      modifies this, wand
      ensures Ready() && fresh(wand) && !old(wand).live
      ensures wand.state == CentredBackdrop(engine, old(wand.state), width, height)
      ensures fg == old(fg) && bg == old(bg) && drawing == old(drawing) && fill == old(fill)
              && stroke == old(stroke) && filename == old(filename) && text == old(text)
    {
      var W, H := Width(), Height();
      var replacement := new Canvas(engine);
      var _ := replacement.SetBackgroundColor("none");
      var m := PadSide(width, height);
      var _ := replacement.Blank(m, m);
      var _ := replacement.AppendCanvas(this, CentredPadOffset(W, width, m), CentredPadOffset(H, height, m));
      wand.Destroy();
      wand := new MagickWand.Clone(replacement.wand);
    }

    /** AppendCanvas (canvas.go:304-312): composite the source's raster over this one. */
    method AppendCanvas(source: Canvas, x: int, y: int) returns (err: Option<Error>)
      requires Ready() && source.wand != null && source.wand.live
      modifies wand
      ensures wand.live
      ensures (wand.state, err)
              == Checked(engine, old(wand.state), CompositeImage(old(source.wand.state).image, x, y), "Could not append image: ")
    {
      err := Check(CompositeImage(source.wand.state.image, x, y), "Could not append image: ");
    }

    /** RotateCanvas (canvas.go:315-323), with the angle given in quarter turns. */
    method RotateCanvas(quarterTurns: int) returns (err: Option<Error>)
      requires Ready()
      modifies wand
      ensures wand.live
      ensures (wand.state, err) == Checked(engine, old(wand.state), RotateImage(quarterTurns), "Could not rotate image: ")
    {
      err := Check(RotateImage(quarterTurns), "Could not rotate image: ");
    }

    /** Width and Height (canvas.go:326-333). */
    function Width(): nat
      reads this, wand
      requires wand != null
    {
      Magick.Width(wand.state)
    }

    function Height(): nat
      reads this, wand
      requires wand != null
    {
      Magick.Height(wand.state)
    }

    /** Write (canvas.go:336-350): merge the drawing first, and write only if that worked. */
    method Write(path: string, disk: Disk) returns (err: Option<Error>)
      requires Ready()
      modifies wand, disk
      ensures wand.live
      ensures var (s1, e1) := Checked(engine, old(wand.state), DrawImage(drawing.ctx.commands), "Could not update image: ");
              if e1.Some? then wand.state == s1 && err == e1 && disk.files == old(disk.files)
              else (wand.state, err) == Checked(engine, s1, WriteImage, "Could not write: ")
                   && disk.files == if err.None? then old(disk.files)[path := Regular(Decodable(wand.state.image.value))]
                                    else old(disk.files)
    {
      err := Update();
      if err.Some? {
        return;
      }
      var ok := disk.Write(engine, wand, path);
      if !ok {
        var message := Error();
        err := Some(Errorf("Could not write: " + message.message));
      }
    }

    /** Resize (canvas.go:353-361). */
    method Resize(width: nat, height: nat) returns (err: Option<Error>)
      requires Ready()
      modifies wand
      ensures wand.live
      ensures (wand.state, err) == Checked(engine, old(wand.state), ResizeImage(width, height), "Could not resize: ")
    {
      err := Check(ResizeImage(width, height), "Could not resize: ");
    }

    /** AdaptiveResize (canvas.go:364-372). */
    method AdaptiveResize(width: nat, height: nat) returns (err: Option<Error>)
      requires Ready()
      modifies wand
      ensures wand.live
      ensures (wand.state, err) == Checked(engine, old(wand.state), AdaptiveResizeImage(width, height), "Could not resize: ")
    {
      err := Check(AdaptiveResizeImage(width, height), "Could not resize: ");
    }

    /** SetQuality (canvas.go:375-383). */
    method SetQuality(quality: nat) returns (err: Option<Error>)
      requires Ready()
      modifies wand
      ensures wand.live
      ensures (wand.state, err) == Checked(engine, old(wand.state), SetCompressionQuality(quality), "Could not set compression quality: ")
      ensures err.None? ==> Quality() == quality
      ensures err.Some? ==> Quality() == old(Quality())
    {
      err := Check(SetCompressionQuality(quality), "Could not set compression quality: ");
    }

    /** Quality (canvas.go:386-388): 0 for a canvas without an image. */
    function Quality(): nat
      reads this, wand
      requires wand != null
    {
      if wand.state.image.Some? then wand.state.image.value.quality else 0
    }

    /** SetBackgroundColor (canvas.go:402-411): the colour handle takes the colour when
        the engine can read it (a failure there is ignored), and the image background is
        then set from the handle. */
    method SetBackgroundColor(color: string) returns (err: Option<Error>)
      requires Ready()
      modifies bg, wand
      ensures wand.live
      ensures bg.color == if ParseColor(color).Some? then ParseColor(color).value else old(bg.color)
      ensures (wand.state, err) == Checked(engine, old(wand.state), Magick.SetBackgroundColor(bg.color), "Could not set background color: ")
    {
      var _ := bg.SetColor(color);
      err := Check(Magick.SetBackgroundColor(bg.color), "Could not set background color: ");
    }

    /** BackgroundColor (canvas.go:414-416). */
    function BackgroundColor(): string
      reads this, bg
      requires bg != null
    {
      HexColor(bg.color)
    }

    /** SetStrokeAntialias and StrokeAntialias (canvas.go:419-430). */
    method SetStrokeAntialias(value: bool)
      requires Ready()
      modifies drawing
      ensures drawing.ctx == old(drawing.ctx).(current := old(drawing.ctx.current).(strokeAntialias := MagickBoolean(value)))
      ensures drawing.exception == old(drawing.exception)
      ensures StrokeAntialias() == value
    {
      drawing.SetCurrent(drawing.ctx.current.(strokeAntialias := MagickBoolean(value)));
    }

    function StrokeAntialias(): bool
      reads this, drawing
      requires drawing != null
    {
      IsMagickTrue(drawing.ctx.current.strokeAntialias)
    }

    /** SetStrokeWidth and StrokeWidth (canvas.go:433-440). */
    method SetStrokeWidth(value: real)
      requires Ready()
      modifies drawing
      ensures drawing.ctx == old(drawing.ctx).(current := old(drawing.ctx.current).(strokeWidth := value))
      ensures drawing.exception == old(drawing.exception)
      ensures StrokeWidth() == value
    {
      drawing.SetCurrent(drawing.ctx.current.(strokeWidth := value));
    }

    function StrokeWidth(): real
      reads this, drawing
      requires drawing != null
    {
      drawing.ctx.current.strokeWidth
    }

    /** SetStrokeOpacity and StrokeOpacity (canvas.go:443-450). */
    method SetStrokeOpacity(value: real)
      requires Ready()
      modifies drawing
      ensures drawing.ctx == old(drawing.ctx).(current := old(drawing.ctx.current).(strokeOpacity := value))
      ensures drawing.exception == old(drawing.exception)
      ensures StrokeOpacity() == value
    {
      drawing.SetCurrent(drawing.ctx.current.(strokeOpacity := value));
    }

    function StrokeOpacity(): real
      reads this, drawing
      requires drawing != null
    {
      drawing.ctx.current.strokeOpacity
    }

    /** SetStrokeLineCap and StrokeLineCap (canvas.go:453-460). */
    method SetStrokeLineCap(value: nat)
      requires Ready()
      modifies drawing
      ensures drawing.ctx == old(drawing.ctx).(current := old(drawing.ctx.current).(lineCap := value))
      ensures drawing.exception == old(drawing.exception)
      ensures StrokeLineCap() == value
    {
      drawing.SetCurrent(drawing.ctx.current.(lineCap := value));
    }

    function StrokeLineCap(): nat
      reads this, drawing
      requires drawing != null
    {
      drawing.ctx.current.lineCap
    }

    /** SetStrokeLineJoin and StrokeLineJoin (canvas.go:463-470). */
    method SetStrokeLineJoin(value: nat)
      requires Ready()
      modifies drawing
      ensures drawing.ctx == old(drawing.ctx).(current := old(drawing.ctx.current).(lineJoin := value))
      ensures drawing.exception == old(drawing.exception)
      ensures StrokeLineJoin() == value
    {
      drawing.SetCurrent(drawing.ctx.current.(lineJoin := value));
    }

    function StrokeLineJoin(): nat
      reads this, drawing
      requires drawing != null
    {
      drawing.ctx.current.lineJoin
    }

    /** SetFillColor and FillColor (canvas.go:479-487): the fill handle takes the colour
        when the engine can read it, and the drawing's fill is set from the handle. */
    method SetFillColor(color: string)
      requires Ready()
      modifies fill, drawing
      ensures fill.color == if ParseColor(color).Some? then ParseColor(color).value else old(fill.color)
      ensures drawing.ctx == old(drawing.ctx).(current := old(drawing.ctx.current).(fillColor := fill.color))
      ensures drawing.exception == old(drawing.exception)
      ensures ParseColor(color).Some? ==> FillColor() == HexColor(ParseColor(color).value)
    {
      var _ := fill.SetColor(color);
      drawing.SetCurrent(drawing.ctx.current.(fillColor := fill.color));
    }

    function FillColor(): string
      reads this, fill
      requires fill != null
    {
      HexColor(fill.color)
    }

    /** SetStrokeColor and StrokeColor (canvas.go:490-498). */
    method SetStrokeColor(color: string)
      requires Ready()
      modifies stroke, drawing
      ensures stroke.color == if ParseColor(color).Some? then ParseColor(color).value else old(stroke.color)
      ensures drawing.ctx == old(drawing.ctx).(current := old(drawing.ctx.current).(strokeColor := stroke.color))
      ensures drawing.exception == old(drawing.exception)
      ensures ParseColor(color).Some? ==> StrokeColor() == HexColor(ParseColor(color).value)
    {
      var _ := stroke.SetColor(color);
      drawing.SetCurrent(drawing.ctx.current.(strokeColor := stroke.color));
    }

    function StrokeColor(): string
      reads this, stroke
      requires stroke != null
    {
      HexColor(stroke.color)
    }

    /** Circle (canvas.go:501-503): centred on the current origin. */
    method Circle(radius: real)
      requires Ready()
      modifies drawing
      ensures drawing.ctx == Emit(old(drawing.ctx), Shape.Circle(0.0, 0.0, radius, 0.0))
      ensures drawing.exception == old(drawing.exception)
    {
      drawing.EmitShape(Shape.Circle(0.0, 0.0, radius, 0.0));
    }

    /** Rectangle (canvas.go:506-508): from the current origin to (x, y). */
    method Rectangle(x: real, y: real)
      requires Ready()
      modifies drawing
      ensures drawing.ctx == Emit(old(drawing.ctx), Shape.Rectangle(0.0, 0.0, x, y))
      ensures drawing.exception == old(drawing.exception)
    {
      drawing.EmitShape(Shape.Rectangle(0.0, 0.0, x, y));
    }

    /** Translate (canvas.go:511-513). */
    method Translate(x: real, y: real)
      requires Ready()
      modifies drawing
      ensures drawing.ctx == old(drawing.ctx).(current := old(drawing.ctx.current).(transform := old(drawing.ctx.current.transform) + [Transform.Translate(x, y)]))
      ensures drawing.exception == old(drawing.exception)
    {
      drawing.SetCurrent(drawing.ctx.current.(transform := drawing.ctx.current.transform + [Transform.Translate(x, y)]));
    }

    /** Scale (canvas.go:516-518). */
    method Scale(x: real, y: real)
      requires Ready()
      modifies drawing
      ensures drawing.ctx == old(drawing.ctx).(current := old(drawing.ctx.current).(transform := old(drawing.ctx.current.transform) + [Transform.Scale(x, y)]))
      ensures drawing.exception == old(drawing.exception)
    {
      drawing.SetCurrent(drawing.ctx.current.(transform := drawing.ctx.current.transform + [Transform.Scale(x, y)]));
    }

    /** Line (canvas.go:521-523): from the current origin to (x, y). */
    method Line(x: real, y: real)
      requires Ready()
      modifies drawing
      ensures drawing.ctx == Emit(old(drawing.ctx), Shape.Line(0.0, 0.0, x, y))
      ensures drawing.exception == old(drawing.exception)
    {
      drawing.EmitShape(Shape.Line(0.0, 0.0, x, y));
    }

    /** Rotate (canvas.go:533-536), with the angle already in degrees. */
    method Rotate(degrees: real)
      requires Ready()
      modifies drawing
      ensures drawing.ctx == old(drawing.ctx).(current := old(drawing.ctx.current).(transform := old(drawing.ctx.current.transform) + [Transform.Rotate(degrees)]))
      ensures drawing.exception == old(drawing.exception)
    {
      drawing.SetCurrent(drawing.ctx.current.(transform := drawing.ctx.current.transform + [Transform.Rotate(degrees)]));
    }

    /** Ellipse (canvas.go:539-541): a full turn centred on the current origin. */
    method Ellipse(a: real, b: real)
      requires Ready()
      modifies drawing
      ensures drawing.ctx == Emit(old(drawing.ctx), Shape.Ellipse(0.0, 0.0, a, b, 0.0, 360.0))
      ensures drawing.exception == old(drawing.exception)
    {
      drawing.EmitShape(Shape.Ellipse(0.0, 0.0, a, b, 0.0, 360.0));
    }

    /** PushDrawing (canvas.go:544-552): save the current drawing settings. */
    method PushDrawing() returns (err: Option<Error>)
      requires Ready()
      modifies drawing
      ensures err.None? && drawing.ctx == Push(old(drawing.ctx)) && drawing.exception == old(drawing.exception)
    {
      var _ := drawing.PushDrawingWand();
      err := None;
    }

    /** PopDrawing (canvas.go:555-563): restore the most recent save. With nothing saved
        the drawing wand records the diagnostic, but the message returned is drained from
        the raster handle, as the code does. */
    method PopDrawing() returns (err: Option<Error>)
      requires Ready()
      modifies drawing, wand
      ensures wand.live
      ensures err.None? <==> old(drawing.ctx).saved != []
      ensures err.None? ==> drawing.ctx == Pop(old(drawing.ctx)).value && wand.state == old(wand.state)
                            && drawing.exception == old(drawing.exception)
      ensures err.Some? ==> drawing.ctx == old(drawing.ctx) && drawing.exception == UnbalancedPop
                            && err.value == Errorf("Could not pop surface: " + old(wand.state).exception)
                            && wand.state == old(wand.state).(exception := "")
    {
      var ok := drawing.PopDrawingWand();
      if ok {
        err := None;
      } else {
        var message := Error();
        err := Some(Errorf("Could not pop surface: " + message.message));
      }
    }

    /** Update (canvas.go:566-574): merge every drawing command into the raster. */
    method Update() returns (err: Option<Error>)
      requires Ready()
      modifies wand
      ensures wand.live
      ensures (wand.state, err) == Checked(engine, old(wand.state), DrawImage(drawing.ctx.commands), "Could not update image: ")
    {
      err := Check(DrawImage(drawing.ctx.commands), "Could not update image: ");
    }

    /** Destroy (canvas.go:577-585): release the raster handle when there is one, and
        report "Nothing to destroy" when it is nil. The other five handles are left alone,
        and the nil the code assigns lands on the receiver's copy: the caller's canvas
        still points at the released handle, so a second Destroy would release it again,
        which the engine does not allow. */
    method Destroy() returns (err: Option<Error>)
      requires wand != null ==> wand.live
      modifies wand
      ensures err.None? <==> wand != null
      ensures err.Some? ==> err.value == NothingToDestroy
      ensures wand != null ==> !wand.live && wand.state == old(wand.state)
    {
      if wand != null {
        wand.Destroy();
        err := None;
      } else {
        err := Some(NothingToDestroy);
      }
    }

    /** The corrected Destroy: the receiver is the canvas itself, so the nil lands on the
        caller's canvas and a second call reports "Nothing to destroy" instead of
        releasing the handle again. */
    method Release() returns (err: Option<Error>)
      requires wand != null ==> wand.live
      modifies this, wand
      ensures wand == null
      ensures err.None? <==> old(wand) != null
      ensures err.Some? ==> err.value == NothingToDestroy
      ensures old(wand) != null ==> !old(wand).live && old(wand).state == old(wand.state)
      ensures fg == old(fg) && bg == old(bg) && drawing == old(drawing) && fill == old(fill)
              && stroke == old(stroke) && filename == old(filename) && text == old(text)
    {
      if wand != null {
        wand.Destroy();
        wand := null;
        err := None;
      } else {
        err := Some(NothingToDestroy);
      }
    }

    /** Blank (canvas.go:588-596): a new image of the given size filled with the
        background handle's colour. */
    method Blank(width: nat, height: nat) returns (err: Option<Error>)
      requires Ready()
      modifies wand
      ensures wand.live
      ensures (wand.state, err) == Checked(engine, old(wand.state), NewImage(width, height, bg.color), "Could not create image: ")
    {
      err := Check(NewImage(width, height, bg.color), "Could not create image: ");
    }

    /** Blur (canvas.go:599-607). */
    method Blur(sigma: real) returns (err: Option<Error>)
      requires Ready()
      modifies wand
      ensures wand.live
      ensures (wand.state, err) == Checked(engine, old(wand.state), BlurImage(sigma), "Could not blur image: ")
    {
      err := Check(BlurImage(sigma), "Could not blur image: ");
    }

    /** AdaptiveBlur (canvas.go:610-618). */
    method AdaptiveBlur(sigma: real) returns (err: Option<Error>)
      requires Ready()
      modifies wand
      ensures wand.live
      ensures (wand.state, err) == Checked(engine, old(wand.state), AdaptiveBlurImage(sigma), "Could not blur image: ")
    {
      err := Check(AdaptiveBlurImage(sigma), "Could not blur image: ");
    }

    /** AddNoise (canvas.go:621-629). */
    method AddNoise() returns (err: Option<Error>)
      requires Ready()
      modifies wand
      ensures wand.live
      ensures (wand.state, err) == Checked(engine, old(wand.state), AddNoiseImage, "Could not add noise: ")
    {
      err := Check(AddNoiseImage, "Could not add noise: ");
    }

    /** Chop (canvas.go:632-640). */
    method Chop(x: int, y: int, width: nat, height: nat) returns (err: Option<Error>)
      requires Ready()
      modifies wand
      ensures wand.live
      ensures (wand.state, err) == Checked(engine, old(wand.state), ChopImage(width, height, x, y), "Could not chop: ")
    {
      err := Check(ChopImage(width, height, x, y), "Could not chop: ");
    }

    /** Crop (canvas.go:643-651). */
    method Crop(x: int, y: int, width: nat, height: nat) returns (err: Option<Error>)
      requires Ready()
      modifies wand
      ensures wand.live
      ensures (wand.state, err) == Checked(engine, old(wand.state), CropImage(width, height, x, y), "Could not crop: ")
    {
      err := Check(CropImage(width, height, x, y), "Could not crop: ");
    }

    /** SetBrightness (canvas.go:654-666): only the brightness percentage moves. */
    method SetBrightness(factor: real) returns (err: Option<Error>)
      requires Ready()
      modifies wand
      ensures wand.live
      ensures (wand.state, err)
              == Checked(engine, old(wand.state), ModulateImage(ModulationPercent(factor), 100.0, 100.0), "Could not set brightness: ")
    {
      err := Check(ModulateImage(ModulationPercent(factor), 100.0, 100.0), "Could not set brightness: ");
    }

    /** SetSaturation (canvas.go:669-681): only the saturation percentage moves. */
    method SetSaturation(factor: real) returns (err: Option<Error>)
      requires Ready()
      modifies wand
      ensures wand.live
      ensures (wand.state, err)
              == Checked(engine, old(wand.state), ModulateImage(100.0, ModulationPercent(factor), 100.0), "Could not set saturation: ")
    {
      err := Check(ModulateImage(100.0, ModulationPercent(factor), 100.0), "Could not set saturation: ");
    }

    /** SetHue (canvas.go:684-696): only the hue percentage moves. */
    method SetHue(factor: real) returns (err: Option<Error>)
      requires Ready()
      modifies wand
      ensures wand.live
      ensures (wand.state, err)
              == Checked(engine, old(wand.state), ModulateImage(100.0, 100.0, ModulationPercent(factor)), "Could not set hue: ")
    {
      err := Check(ModulateImage(100.0, 100.0, ModulationPercent(factor)), "Could not set hue: ");
    }
  }

  /** Thumbnail as written on a canvas smaller than the target: the caller's raster handle
      is released, so the caller is left holding a dead handle and never sees the
      thumbnail, which lives on a handle only the method could reach. */
  method ThumbnailAsWrittenLosesRaster(e: Engine) returns (c: Canvas)
    ensures c.wand != null && !c.wand.live
  {
    c := new Canvas(e);
    var _, _ := c.Thumbnail(1, 1);
  }

  /** The corrected Thumbnail leaves the caller's canvas usable, holding a raster of
      exactly the target size, whenever the engine accepts blanks, resizes and crops. */
  method ThumbnailInPlaceKeepsRaster(c: Canvas, width: nat, height: nat) returns (err: Option<Error>)
    requires c.Ready() && 0 < width < TwoTo63 && 0 < height < TwoTo63
    requires Magick.Width(c.wand.state) < TwoTo63 && Magick.Height(c.wand.state) < TwoTo63
    requires "MagickNewImage" !in c.engine.faults && "MagickResizeImage" !in c.engine.faults
             && "MagickCropImage" !in c.engine.faults
    modifies c, c.wand
    ensures c.Ready() && err.None?
    ensures Magick.Width(c.wand.state) == width && Magick.Height(c.wand.state) == height
  {
    CentredThumbnailExactSize(c.engine, c.wand.state, width, height);
    err := c.ThumbnailInPlace(width, height);
  }

  /** Destroy as written: the first call releases the handle but leaves it in the
      caller's canvas, so a second call would find a non-nil handle that is already
      released and release it again. */
  method DestroyTwiceAsWritten(e: Engine) returns (c: Canvas, first: Option<Error>)
    ensures first.None? && c.wand != null && !c.wand.live
  {
    c := new Canvas(e);
    first := c.Destroy();
  }

  /** The corrected Destroy called twice: one release, then "Nothing to destroy". */
  method ReleaseTwice(e: Engine) returns (first: Option<Error>, second: Option<Error>)
    ensures first.None? && second == Some(NothingToDestroy)
  {
    var c := new Canvas(e);
    first := c.Release();
    second := c.Release();
  }
}
