/** The raster half of the engine, abstracted to what the façade's logic can observe:
    whether a wand holds an image, that image's width, height, property list, orientation
    field, compression quality and background colour, and a log of the pixel operations
    applied to it (the pixels themselves are not modelled). Every engine call is a pure
    transition `Step` on a wand's state; which calls the engine refuses is fixed by the
    `Engine` value (a fault table keyed by the C function's name, with the diagnostic it
    leaves behind), together with the refusals the model states outright: no image in the
    wand, an undecodable file, a crop or chop region the engine cannot take, and an empty
    size. */
module Magick {
  import opened Wrappers
  import opened Colors
  import opened Drawing

  datatype Property = Property(key: string, value: string)

  datatype Image = Image(
    width: nat,
    height: nat,
    props: seq<Property>,
    orientation: nat,
    quality: nat,
    background: Color,
    history: seq<PixelOp>)

  /** The pixel operations the log records, with the engine-level arguments. */
  datatype PixelOp =
    | Flopped
    | Flipped
    | Rotated(quarterTurns: int)
    | Resized(toWidth: nat, toHeight: nat)
    | AdaptivelyResized(toWidth: nat, toHeight: nat)
    | Cropped(cropWidth: nat, cropHeight: nat, cropX: int, cropY: int)
    | Chopped(chopWidth: nat, chopHeight: nat, chopX: int, chopY: int)
    | Composited(source: Image, atX: int, atY: int)
    | Modulated(brightness: real, saturation: real, hue: real)
    | Blurred(sigma: real)
    | AdaptivelyBlurred(sigma: real)
    | Noised
    | Drew(commands: seq<DrawCommand>)

  /** What a file on disk decodes to. */
  datatype Decoded = Decodable(image: Image) | Undecodable(reason: string)

  /** One MagickWand call on the current image, with its arguments. */
  datatype Request =
    | ReadImage(content: Decoded)
    | NewImage(newWidth: nat, newHeight: nat, fill: Color)
    | WriteImage
    | FlopImage
    | FlipImage
    | RotateImage(turns: int)
    | ResizeImage(rw: nat, rh: nat)
    | AdaptiveResizeImage(aw: nat, ah: nat)
    | CropImage(cw: nat, ch: nat, cx: int, cy: int)
    | ChopImage(kw: nat, kh: nat, kx: int, ky: int)
    | CompositeImage(src: Option<Image>, x: int, y: int)
    | ModulateImage(b: real, s: real, h: real)
    | BlurImage(blur: real)
    | AdaptiveBlurImage(adaptiveBlur: real)
    | AddNoiseImage
    | DrawImage(drawn: seq<DrawCommand>)
    | SetCompressionQuality(q: nat)
    | SetBackgroundColor(bg: Color)
    | SetOrientation(o: nat)
    | SetProperty(pkey: string, pvalue: string)

  /** The C function a request is made through. */
  function Name(r: Request): string
  {
    match r
    case ReadImage(_) => "MagickReadImage"
    case NewImage(_, _, _) => "MagickNewImage"
    case WriteImage => "MagickWriteImage"
    case FlopImage => "MagickFlopImage"
    case FlipImage => "MagickFlipImage"
    case RotateImage(_) => "MagickRotateImage"
    case ResizeImage(_, _) => "MagickResizeImage"
    case AdaptiveResizeImage(_, _) => "MagickAdaptiveResizeImage"
    case CropImage(_, _, _, _) => "MagickCropImage"
    case ChopImage(_, _, _, _) => "MagickChopImage"
    case CompositeImage(_, _, _) => "MagickCompositeImage"
    case ModulateImage(_, _, _) => "MagickModulateImage"
    case BlurImage(_) => "MagickBlurImage"
    case AdaptiveBlurImage(_) => "MagickAdaptiveBlurImage"
    case AddNoiseImage => "MagickAddNoiseImage"
    case DrawImage(_) => "MagickDrawImage"
    case SetCompressionQuality(_) => "MagickSetImageCompressionQuality"
    case SetBackgroundColor(_) => "MagickSetImageBackgroundColor"
    case SetOrientation(_) => "MagickSetImageOrientation"
    case SetProperty(_, _) => "MagickSetImageProperty"
  }

  /** The process-wide engine: which calls it refuses (with their diagnostics) and the
      settings a new drawing wand starts with. */
  datatype Engine = Engine(faults: map<string, string>, drawDefaults: DrawState)

  datatype WandState = WandState(image: Option<Image>, exception: string)

  const EmptyWand: WandState := WandState(None, "")

  const NoImagesReason: string := "ContainsNoImages"
  const GeometryReason: string := "GeometryDoesNotContainImage"
  const ZeroSizeReason: string := "NegativeOrZeroImageSize"

  /** A resize to an empty size, which the engine refuses. */
  predicate ZeroSize(r: Request)
  {
    match r
    case ResizeImage(w, h) => w == 0 || h == 0
    case AdaptiveResizeImage(w, h) => w == 0 || h == 0
    case _ => false
  }

  /** The first value stored under `key`, "" when there is none (a NULL read as a Go string). */
  function GetProp(props: seq<Property>, key: string): string
  {
    if props == [] then ""
    else if props[0].key == key then props[0].value
    else GetProp(props[1..], key)
  }

  /** MagickSetImageProperty: replace the first value under `key`, or add the key at the end. */
  function SetProp(props: seq<Property>, key: string, value: string): (r: seq<Property>)
    ensures GetProp(r, key) == value
  {
    if props == [] then [Property(key, value)]
    else if props[0].key == key then [Property(key, value)] + props[1..]
    else [props[0]] + SetProp(props[1..], key, value)
  }

  lemma {:induction false} SetPropKeepsOthers(props: seq<Property>, key: string, value: string, other: string)
    requires other != key
    ensures GetProp(SetProp(props, key, value), other) == GetProp(props, other)
  {
    if props != [] && props[0].key != key {
      var r := SetProp(props, key, value);
      assert r[0] == props[0] && r[1..] == SetProp(props[1..], key, value);
      SetPropKeepsOthers(props[1..], key, value, other);
    }
  }

  /** After a set the key is present, and every other entry was already there. */
  lemma {:induction false} SetPropKeys(props: seq<Property>, key: string, value: string)
    ensures exists i :: 0 <= i < |SetProp(props, key, value)| && SetProp(props, key, value)[i].key == key
    ensures forall i :: 0 <= i < |SetProp(props, key, value)| ==>
              SetProp(props, key, value)[i].key == key || SetProp(props, key, value)[i] in props
  {
    var r := SetProp(props, key, value);
    if props == [] {
      assert r[0].key == key;
    } else if props[0].key == key {
      assert r[0].key == key;
      forall i | 0 < i < |r|
        ensures r[i] in props
      {
        assert r[i] == props[i];
      }
    } else {
      assert r == [props[0]] + SetProp(props[1..], key, value);
      SetPropKeys(props[1..], key, value);
      var k :| 0 <= k < |SetProp(props[1..], key, value)| && SetProp(props[1..], key, value)[k].key == key;
      assert r[k + 1].key == key;
      forall i | 0 < i < |r|
        ensures r[i].key == key || r[i] in props
      {
        assert r[i] == SetProp(props[1..], key, value)[i - 1];
        if r[i].key != key {
          assert r[i] in props[1..];
        }
      }
    }
  }

  /** A value other than "" can only come from an entry under the key. */
  lemma {:induction false} GetPropPresent(props: seq<Property>, key: string)
    requires GetProp(props, key) != ""
    ensures exists i :: 0 <= i < |props| && props[i].key == key
  {
    if props[0].key != key {
      GetPropPresent(props[1..], key);
      var k :| 0 <= k < |props[1..]| && props[1..][k].key == key;
      assert props[k + 1].key == key;
    }
  }

  /** The names MagickGetImageProperties(wand, "*") lists, in order. */
  function Names(props: seq<Property>): (names: seq<string>)
    ensures |names| == |props|
    ensures forall i :: 0 <= i < |props| ==> names[i] == props[i].key
  {
    if props == [] then [] else [props[0].key] + Names(props[1..])
  }

  /** How many of `len` units starting at `off` fall inside `[0, cur)`. */
  function Overlap(cur: nat, off: int, len: nat): (n: nat)
    ensures n <= cur && n <= len
    ensures 0 <= off && off + len <= cur ==> n == len
  {
    var lo := if off < 0 then 0 else off;
    var hi := if off + len < cur then off + len else cur;
    if hi <= lo then 0 else hi - lo
  }

  predicate NeedsImage(r: Request)
  {
    !r.ReadImage? && !r.NewImage?
  }

  /** The length a crop asks for along a side: zero stands for the whole side. */
  function Extent(side: nat, len: nat): (n: nat)
    ensures len > 0 ==> n == len
    ensures len == 0 ==> n == side
  {
    if len == 0 then side else len
  }

  /** A crop region that lies wholly before the image or starts past its far edge; the
      engine answers it with a single transparent pixel rather than an error. */
  predicate CropOutside(img: Image, w: nat, h: nat, x: int, y: int)
  {
    x + Extent(img.width, w) <= 0 || y + Extent(img.height, h) <= 0 || x > img.width || y > img.height
  }

  /** A request that needs an image the engine does not have: any call but a read or a
      blank on a wand without an image, and a composite whose source wand has none. The
      engine checks both before anything else and reports ContainsNoImages. */
  predicate LacksImage(s: WandState, r: Request)
  {
    (NeedsImage(r) && s.image.None?) || (r.CompositeImage? && r.src.None?)
  }

  /** A region request the engine refuses: a crop that is not outside the image but keeps
      nothing of it (it starts exactly on the far edge), or a chop that lies wholly before
      the image or starts past its far edge. */
  predicate MissesImage(img: Image, r: Request)
  {
    match r
    case CropImage(w, h, x, y) =>
      !CropOutside(img, w, h, x, y)
      && (Overlap(img.width, x, Extent(img.width, w)) == 0 || Overlap(img.height, y, Extent(img.height, h)) == 0)
    case ChopImage(w, h, x, y) => x + w < 0 || y + h < 0 || x > img.width || y > img.height
    case _ => false
  }

  /** The effect of an accepted request on the current image. */
  function Apply(img: Image, r: Request): (n: Image)
    requires NeedsImage(r) && !(r.CompositeImage? && r.src.None?) && !MissesImage(img, r)
  {
    var log := img.history;
    match r
    case WriteImage => img
    case FlopImage => img.(history := log + [Flopped])
    case FlipImage => img.(history := log + [Flipped])
    case RotateImage(q) =>
      if q % 2 == 0 then img.(history := log + [Rotated(q)])
      else img.(width := img.height, height := img.width, history := log + [Rotated(q)])
    case ResizeImage(w, h) => img.(width := w, height := h, history := log + [Resized(w, h)])
    case AdaptiveResizeImage(w, h) => img.(width := w, height := h, history := log + [AdaptivelyResized(w, h)])
    case CropImage(w, h, x, y) =>
      if CropOutside(img, w, h, x, y) then
        img.(width := 1, height := 1, background := Transparent, history := log + [Cropped(w, h, x, y)])
      else
        img.(width := Overlap(img.width, x, Extent(img.width, w)), height := Overlap(img.height, y, Extent(img.height, h)),
             history := log + [Cropped(w, h, x, y)])
    case ChopImage(w, h, x, y) =>
      img.(width := img.width - Overlap(img.width, x, w), height := img.height - Overlap(img.height, y, h),
           history := log + [Chopped(w, h, x, y)])
    case CompositeImage(src, x, y) => img.(history := log + [Composited(src.value, x, y)])
    case ModulateImage(b, s, h) => img.(history := log + [Modulated(b, s, h)])
    case BlurImage(sigma) => img.(history := log + [Blurred(sigma)])
    case AdaptiveBlurImage(sigma) => img.(history := log + [AdaptivelyBlurred(sigma)])
    case AddNoiseImage => img.(history := log + [Noised])
    case DrawImage(cmds) => img.(history := log + [Drew(cmds)])
    case SetCompressionQuality(q) => img.(quality := q)
    case SetBackgroundColor(c) => img.(background := c)
    case SetOrientation(o) => img.(orientation := o)
    case SetProperty(k, v) => img.(props := SetProp(img.props, k, v))
  }

  /** One engine call: the new wand state, and whether the call returned MagickTrue.
      A refused call changes nothing but the pending diagnostic. */
  function Step(e: Engine, s: WandState, r: Request): (res: (WandState, bool))
    ensures !res.1 ==> res.0.image == s.image
    ensures res.1 ==> res.0.exception == s.exception
  {
    if LacksImage(s, r) then (s.(exception := NoImagesReason), false)
    else if Name(r) in e.faults then (s.(exception := e.faults[Name(r)]), false)
    else match r
      case ReadImage(Undecodable(reason)) => (s.(exception := reason), false)
      case ReadImage(Decodable(img)) => (s.(image := Some(img)), true)
      case NewImage(w, h, c) =>
        if w == 0 || h == 0 then (s.(exception := ZeroSizeReason), false)
        else (s.(image := Some(Image(w, h, [], 0, 0, c, []))), true)
      case _ =>
        if ZeroSize(r) then (s.(exception := ZeroSizeReason), false)
        else if MissesImage(s.image.value, r) then (s.(exception := GeometryReason), false)
        else (s.(image := Some(Apply(s.image.value, r))), true)
  }

  /** A call on an image that the engine has no reason to refuse is applied. */
  lemma StepAccepted(e: Engine, s: WandState, r: Request)
    requires s.image.Some? && NeedsImage(r) && !LacksImage(s, r) && Name(r) !in e.faults
    requires !ZeroSize(r) && !MissesImage(s.image.value, r)
    ensures Step(e, s, r) == (s.(image := Some(Apply(s.image.value, r))), true)
  {
  }

  /** MagickGetImageWidth / MagickGetImageHeight: 0 for a wand without an image. */
  function Width(s: WandState): nat
  {
    if s.image.Some? then s.image.value.width else 0
  }

  function Height(s: WandState): nat
  {
    if s.image.Some? then s.image.value.height else 0
  }

  /** Flip, flop and a half turn keep the dimensions; a quarter turn swaps them. */
  lemma StepDimensions(e: Engine, s: WandState, r: Request)
    requires r.FlopImage? || r.FlipImage? || r.RotateImage?
    ensures var (t, ok) := Step(e, s, r);
            if ok && r.RotateImage? && r.turns % 2 != 0
            then Width(t) == Height(s) && Height(t) == Width(s)
            else Width(t) == Width(s) && Height(t) == Height(s)
  {
  }

  /** Resize and Blank to a non-empty size set the dimensions when they succeed; a crop
      inside the image yields exactly the requested size and fails only when the engine
      refuses it. */
  lemma StepSetsDimensions(e: Engine, s: WandState, r: Request)
    requires (r.ResizeImage? && r.rw > 0 && r.rh > 0) || (r.NewImage? && r.newWidth > 0 && r.newHeight > 0)
             || (r.CropImage? && s.image.Some? && 0 <= r.cx && 0 <= r.cy
             && r.cx + r.cw <= Width(s) && r.cy + r.ch <= Height(s) && r.cw > 0 && r.ch > 0)
    ensures var (t, ok) := Step(e, s, r);
            ok ==> (r.ResizeImage? ==> Width(t) == r.rw && Height(t) == r.rh)
                   && (r.NewImage? ==> Width(t) == r.newWidth && Height(t) == r.newHeight)
                   && (r.CropImage? ==> Width(t) == r.cw && Height(t) == r.ch)
    ensures r.CropImage? ==> (Step(e, s, r).1 <==> "MagickCropImage" !in e.faults)
  {
  }

  /** A crop on an image the engine does not fault: a region outside the image yields a
      single transparent pixel and success; otherwise the request is clipped to the image,
      a zero width or height standing for the whole side, and it fails exactly when the
      clipped region is empty. The chop it pairs with removes the clipped region and is
      refused only for a region outside the image. */
  lemma StepCropAndChop(e: Engine, s: WandState, w: nat, h: nat, x: int, y: int)
    requires s.image.Some? && "MagickCropImage" !in e.faults && "MagickChopImage" !in e.faults
    ensures var img := s.image.value;
            var (t, ok) := Step(e, s, CropImage(w, h, x, y));
            var cw, ch := Overlap(img.width, x, Extent(img.width, w)), Overlap(img.height, y, Extent(img.height, h));
            (CropOutside(img, w, h, x, y) ==> ok && Width(t) == 1 && Height(t) == 1
                                              && t.image.value.background == Transparent)
            && (!CropOutside(img, w, h, x, y) ==>
                  (ok <==> cw > 0 && ch > 0) && (ok ==> Width(t) == cw && Height(t) == ch))
            && (ok ==> t.image.value.props == img.props)
    ensures var img := s.image.value;
            var (t, ok) := Step(e, s, ChopImage(w, h, x, y));
            (ok <==> 0 <= x + w && 0 <= y + h && x <= img.width && y <= img.height)
            && (ok ==> Width(t) == img.width - Overlap(img.width, x, w)
                       && Height(t) == img.height - Overlap(img.height, y, h))
  {
  }

  /** Compositing never changes the destination's dimensions, and the pixel log of the
      destination gains exactly the source image and its offset. A destination or source
      wand without an image is refused with ContainsNoImages, ahead of any other refusal. */
  lemma CompositeKeepsDimensions(e: Engine, s: WandState, src: Option<Image>, x: int, y: int)
    ensures var (t, ok) := Step(e, s, CompositeImage(src, x, y));
            Width(t) == Width(s) && Height(t) == Height(s)
            && (ok <==> s.image.Some? && src.Some? && "MagickCompositeImage" !in e.faults)
            && (ok ==> t.image.value.history == s.image.value.history + [Composited(src.value, x, y)])
            && (s.image.None? || src.None? ==> t.exception == NoImagesReason)
  {
  }

  /** `factor = math.Max(-1, factor); factor = math.Min(1, factor)` (canvas.go:656-657,
      canvas/canvas.go:394-395), on exact reals. */
  function ClampFactor(f: real): (c: real)
    ensures -1.0 <= c <= 1.0
    ensures -1.0 <= f <= 1.0 ==> c == f
    ensures f < -1.0 ==> c == -1.0
    ensures f > 1.0 ==> c == 1.0
  {
    if f < -1.0 then -1.0 else if f > 1.0 then 1.0 else f
  }

  /** The adjusted percentage handed to MagickModulateImage: `100 + factor*100` of the
      clamped factor, so never below 0 and never above 200. */
  function ModulationPercent(f: real): (p: real)
    ensures 0.0 <= p <= 200.0
    ensures -1.0 <= f <= 1.0 ==> p == 100.0 + 100.0 * f
    ensures f <= -1.0 ==> p == 0.0
    ensures f >= 1.0 ==> p == 200.0
  {
    100.0 + ClampFactor(f) * 100.0
  }

  /** A raster handle. `live` turns false when DestroyMagickWand releases it. */
  class MagickWand {
    var state: WandState
    var live: bool

    /** NewMagickWand. */
    constructor ()
      ensures state == EmptyWand && live
    {
      state := EmptyWand;
      live := true;
    }

    /** CloneMagickWand: an independent wand with the same image and diagnostic. */
    constructor Clone(from: MagickWand)
      requires from.live
      ensures state == from.state && live
    {
      state := from.state;
      live := true;
    }

    method Call(e: Engine, r: Request) returns (ok: bool)
      requires live
      modifies this
      ensures live && (state, ok) == Step(e, old(state), r)
    {
      var res := Step(e, state, r);
      state, ok := res.0, res.1;
    }

    /** MagickGetException followed by MagickClearException. */
    method TakeException() returns (message: string)
      requires live
      modifies this
      ensures live && message == old(state).exception && state == old(state).(exception := "")
    {
      message := state.exception;
      state := state.(exception := "");
    }

    /** MagickGetImageProperties(wand, "*", &n): the property names of the current
        image; a wand without an image records ContainsNoImages and lists none. */
    method GetImageProperties() returns (names: seq<string>)
      requires live
      modifies this
      ensures live
      ensures names == if old(state).image.Some? then Names(old(state).image.value.props) else []
      ensures state == if old(state).image.Some? then old(state) else old(state).(exception := NoImagesReason)
    {
      if state.image.Some? {
        names := Names(state.image.value.props);
      } else {
        names := [];
        state := state.(exception := NoImagesReason);
      }
    }

    /** MagickGetImageProperty on a wand that holds an image. */
    method GetImageProperty(key: string) returns (value: string)
      requires live && state.image.Some?
      ensures value == GetProp(state.image.value.props, key)
    {
      value := GetProp(state.image.value.props, key);
    }

    /** DestroyMagickWand. */
    method Destroy()
      requires live
      modifies this
      ensures !live && state == old(state)
    {
      live := false;
    }
  }

  /** A colour handle. */
  class PixelWand {
    var color: Color

    /** NewPixelWand: opaque black. */
    constructor ()
      ensures color == Black
    {
      color := Black;
    }

    /** PixelSetColor: a specification the engine cannot read leaves the colour as it was. */
    method SetColor(spec: string) returns (ok: bool)
      modifies this
      ensures ok == ParseColor(spec).Some?
      ensures color == (if ok then ParseColor(spec).value else old(color))
    {
      var c := ParseColor(spec);
      ok := c.Some?;
      if ok {
        color := c.value;
      }
    }
  }

  /** The file system as `os.Stat` and the engine's reader and writer see it. */
  datatype Entry = Directory | Regular(content: Decoded)

  class Disk {
    var files: map<string, Entry>

    constructor (initial: map<string, Entry>)
      ensures files == initial
    {
      files := initial;
    }

    /** MagickWriteImage: encode the wand's current image to `path`. */
    method Write(e: Engine, w: MagickWand, path: string) returns (ok: bool)
      requires w.live
      modifies this, w
      ensures w.live && (w.state, ok) == Step(e, old(w.state), WriteImage)
      ensures files == if ok then old(files)[path := Regular(Decodable(w.state.image.value))] else old(files)
    {
      ok := w.Call(e, WriteImage);
      if ok {
        files := files[path := Regular(Decodable(w.state.image.value))];
      }
    }
  }

  /** The diagnostic the reader records for a path it cannot open as a file. */
  const UnableToOpenReason: string := "UnableToOpenBlob"

  /** What MagickReadImage finds at `path`: the file's content, or a refusal when there is
      no regular file there. */
  function ReadFrom(files: map<string, Entry>, path: string): (d: Decoded)
    ensures path in files && files[path].Regular? ==> d == files[path].content
    ensures !(path in files && files[path].Regular?) ==> d == Undecodable(UnableToOpenReason)
  {
    if path in files && files[path].Regular? then files[path].content else Undecodable(UnableToOpenReason)
  }
}
