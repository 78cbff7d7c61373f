/** The arithmetic of Canvas.Thumbnail (canvas.go:258-301), with the source's float64
    ratio replaced by exact rationals and its integer conversions written out: `uint`
    subtraction wraps, `int(...)` reinterprets, and `/` truncates toward zero.

    With `W x H` the current size and `w x h` the target, the planner either pads (the
    source is smaller than the target in some dimension) or resizes so that the target
    fits exactly in one dimension and is covered in the other; both branches end with a
    crop of `w x h` centred on whatever the raster then is. */
module Thumbnail {
  import opened Wrappers
  import opened GoInt
  import opened Colors
  import opened Magick
  import opened Failures

  /** `math.Min(W/w, H/h)`, computed exactly. */
  function Ratio(W: nat, H: nat, w: nat, h: nat): real
    requires w > 0 && h > 0
  {
    var rw := W as real / w as real;
    var rh := H as real / h as real;
    if rw <= rh then rw else rh
  }

  /** The pad branch is taken when the source is narrower or shorter than the target. */
  predicate PadsUp(W: nat, H: nat, w: nat, h: nat)
  {
    W < w || H < h
  }

  lemma QuotientBelowOne(a: nat, b: nat)
    requires b > 0
    ensures a as real / b as real < 1.0 <==> a < b
  {
    var q := a as real / b as real;
    assert q * b as real == a as real;
    ScalePositive(q, 1.0, b as real);
  }


  /** `ratio < 1.0` exactly when the source is smaller than the target in some dimension. */
  lemma RatioBelowOneIff(W: nat, H: nat, w: nat, h: nat)
    requires w > 0 && h > 0
    ensures Ratio(W, H, w, h) < 1.0 <==> PadsUp(W, H, w, h)
  {
    QuotientBelowOne(W, w);
    QuotientBelowOne(H, h);
  }

  /** The side of the square transparent backdrop: `max(width, height)`. */
  function PadSide(w: nat, h: nat): nat
  {
    Max(w, h)
  }

  /** `int(int(outer - inner) / 2)` with `outer` and `inner` of Go type `uint`. */
  function CentreOffset(outer: nat, inner: nat): int
  {
    Quo(SignedDifference(outer, inner), 2)
  }

  /** When the values fit a Go `int`, the offset is the exact difference halved toward
      zero, so the two margins it leaves differ by at most one. */
  lemma CentreOffsetExact(outer: nat, inner: nat)
    requires outer < TwoTo63 && inner < TwoTo63
    ensures CentreOffset(outer, inner) == Quo(outer - inner, 2)
    ensures outer >= inner ==> 0 <= 2 * CentreOffset(outer, inner) <= outer - inner
                               && outer - inner - 1 <= 2 * CentreOffset(outer, inner)
    ensures outer < inner ==> outer - inner <= 2 * CentreOffset(outer, inner) <= 0
                              && 2 * CentreOffset(outer, inner) <= outer - inner + 1
  {
    SignedDifferenceExact(outer, inner);
    QuoHalf(outer - inner);
  }

  /** `uint(float64(W) / ratio)` and `uint(float64(H) / ratio)`, in integers: the
      dimension with the smaller ratio lands exactly on its target. */
  function ResizeTarget(W: nat, H: nat, w: nat, h: nat): (nat, nat)
    requires w > 0 && h > 0 && !PadsUp(W, H, w, h)
  {
    if W * h <= w * H then (w, H * w / W) else (W * h / H, h)
  }

  /** Multiplying by a positive factor keeps the order. */
  lemma ScalePositive(x: real, y: real, k: real)
    requires k > 0.0
    ensures x <= y <==> x * k <= y * k
    ensures x < y <==> x * k < y * k
  {
  }

  lemma DivFloor(a: nat, b: nat)
    requires b > 0
    ensures (a as real / b as real).Floor == a / b
  {
    var q := a / b;
    var r := a % b;
    var f := r as real / b as real;
    QuotientBelowOne(r, b);
    SplitQuotient(q, r, b);
    assert a == q * b + r;
    assert a as real / b as real == q as real + f;
    assert 0.0 <= f < 1.0;
  }

  /** `(q*b + r) / b == q + r/b` over the rationals. */
  lemma SplitQuotient(q: nat, r: nat, b: nat)
    requires b > 0
    ensures (q * b + r) as real / b as real == q as real + r as real / b as real
  {
    var f := r as real / b as real;
    assert f * b as real == r as real;
    var x := (q * b + r) as real / b as real;
    assert x * b as real == (q * b + r) as real;
    assert (q as real + f) * b as real == (q * b + r) as real;
    assert x * b as real == (q as real + f) * b as real;
    ScalePositive(x, q as real + f, b as real);
  }



  /** Comparing the two ratios is comparing the cross products `W*h` and `w*H`. */
  lemma CompareRatios(W: nat, H: nat, w: nat, h: nat)
    requires w > 0 && h > 0
    ensures W as real / w as real <= H as real / h as real <==> W * h <= w * H
  {
    var rw := W as real / w as real;
    var rh := H as real / h as real;
    var k := (w * h) as real;
    assert rw * k == (W * h) as real;
    assert rh * k == (w * H) as real;
    ScalePositive(rw, rh, k);
  }

  /** Dividing by a quotient multiplies by its divisor. */
  lemma DivideByQuotient(c: nat, a: nat, b: nat)
    requires a > 0 && b > 0
    ensures c as real / (a as real / b as real) == (c * b) as real / a as real
  {
    var q := a as real / b as real;
    assert q * b as real == a as real;
    assert q != 0.0;
    var lhs := c as real / q;
    assert lhs * q == c as real;
    assert lhs * a as real == (c * b) as real;
  }

  /** The integer formula is the exact-arithmetic reading of the source's float
      expression `uint(W/ratio), uint(H/ratio)`. */
  lemma ResizeTargetIsExactRatio(W: nat, H: nat, w: nat, h: nat)
    requires w > 0 && h > 0 && !PadsUp(W, H, w, h)
    ensures var ratio := Ratio(W, H, w, h);
            ratio > 0.0
            && ResizeTarget(W, H, w, h) == ((W as real / ratio).Floor, (H as real / ratio).Floor)
  {
    CompareRatios(W, H, w, h);
    DivideByQuotient(W, W, w);
    DivideByQuotient(H, W, w);
    DivideByQuotient(W, H, h);
    DivideByQuotient(H, H, h);
    DivFloor(W * w, W);
    DivFloor(H * w, W);
    DivFloor(W * h, H);
    DivFloor(H * h, H);
    MulDivCancel(w, W);
    MulDivCancel(h, H);
  }

  lemma MulDivCancel(a: nat, b: nat)
    requires b > 0
    ensures b * a / b == a && a * b / b == a
  {
    assert b * a == a * b;
    DivBounds(a * b, a, b);
  }


  /** `a / d` is at least `b` when `a` is at least `b * d`, and at most `b` when `a` is
      at most `b * d`. */
  lemma DivBounds(a: nat, b: nat, d: nat)
    requires d > 0
    ensures a >= b * d ==> a / d >= b
    ensures a <= b * d ==> a / d <= b
  {
    var q := a / d;
    assert q * d <= a < (q + 1) * d;
    MulMonotone(b, q + 1, d);
    MulMonotone(q, b, d);
  }

  /** Multiplying integers by a positive factor keeps their order. */
  lemma MulMonotone(x: int, y: int, k: nat)
    requires k > 0
    ensures x < y <==> x * k < y * k
    ensures x <= y <==> x * k <= y * k
  {
    assert y * k - x * k == (y - x) * k;
  }


  /** The resize keeps the aspect ratio as far as integers allow, fits one side exactly,
      covers the other, and never enlarges. */
  lemma ResizeTargetCovers(W: nat, H: nat, w: nat, h: nat)
    requires w > 0 && h > 0 && !PadsUp(W, H, w, h)
    ensures var (rw, rh) := ResizeTarget(W, H, w, h);
            (rw == w && rh >= h) || (rh == h && rw >= w)
    ensures var (rw, rh) := ResizeTarget(W, H, w, h);
            rw <= W && rh <= H
  {
    if W * h <= w * H {
      ScaledSideCovers(W, H, w, h);
    } else {
      ScaledSideCovers(H, W, h, w);
    }
  }

  /** The side scaled by the exact ratio `a/A` of the side that fits exactly: when that
      side has the smaller ratio, the scaled side covers its target `b` and stays within
      its source side `B`. */
  lemma ScaledSideCovers(A: nat, B: nat, a: nat, b: nat)
    requires 0 < a <= A && 0 < b <= B && A * b <= a * B
    ensures b <= B * a / A <= B
  {
    assert B * a >= b * A;
    DivBounds(B * a, b, A);
    MulMonotone(a, A, B);
    assert B * a <= B * A;
    DivBounds(B * a, B, A);
  }

  /** The size the final crop starts from: the backdrop square in the pad branch, the
      resize target otherwise. */
  function BeforeCrop(W: nat, H: nat, w: nat, h: nat): (nat, nat)
    requires w > 0 && h > 0
  {
    if PadsUp(W, H, w, h) then (PadSide(w, h), PadSide(w, h)) else ResizeTarget(W, H, w, h)
  }

  /** Both branches leave a raster at least as large as the target, so the centred crop
      has non-negative offsets and lies inside it. */
  lemma CropFits(W: nat, H: nat, w: nat, h: nat)
    requires w > 0 && h > 0 && w < TwoTo63 && h < TwoTo63 && W < TwoTo63 && H < TwoTo63
    ensures var (cw, ch) := BeforeCrop(W, H, w, h);
            cw >= w && ch >= h
            && 0 <= CentreOffset(cw, w) && CentreOffset(cw, w) + w <= cw
            && 0 <= CentreOffset(ch, h) && CentreOffset(ch, h) + h <= ch
  {
    var (cw, ch) := BeforeCrop(W, H, w, h);
    if !PadsUp(W, H, w, h) {
      ResizeTargetCovers(W, H, w, h);
    }
    CentreOffsetExact(cw, w);
    CentreOffsetExact(ch, h);
  }

  /** Where the source's left (or top) edge ends up inside the thumbnail in the pad
      branch as written: composited at `(w - W)/2` into the backdrop, then shifted by
      the crop taken at `(m - w)/2` of the backdrop's side `m`. */
  function PaddedPlacement(W: nat, w: nat, m: nat): int
  {
    CentreOffset(w, W) - CentreOffset(m, w)
  }

  /** The backdrop offset that keeps the source where the code meant it to be in the
      thumbnail: the intended offset `(w - W)/2` plus the crop offset `(m - w)/2`. */
  function CentredPadOffset(W: nat, w: nat, m: nat): int
  {
    CentreOffset(w, W) + CentreOffset(m, w)
  }

  /** A fresh wand whose background is set to "none" (refused, and drained, while the
      wand holds no image), blanked to a transparent `m x m` square, with the source
      composited over it at `(x, y)`. */
  function BackdropAt(e: Engine, src: WandState, m: nat, x: int, y: int): WandState
  {
    var b0 := Checked(e, EmptyWand, SetBackgroundColor(Transparent), "Could not set background color: ").0;
    var b1 := Checked(e, b0, NewImage(m, m, Transparent), "Could not create image: ").0;
    Checked(e, b1, CompositeImage(src.image, x, y), "Could not append image: ").0
  }

  /** The raster state of the replacement canvas in the pad branch (canvas.go:271-278):
      the backdrop square of side `max(w, h)` with the source composited at the offsets
      the code computes. */
  function Backdrop(e: Engine, src: WandState, w: nat, h: nat): WandState
  {
    BackdropAt(e, src, PadSide(w, h), CentreOffset(w, Width(src)), CentreOffset(h, Height(src)))
  }

  /** The corrected backdrop: the source composited at the offsets that survive the
      centred crop. */
  function CentredBackdrop(e: Engine, src: WandState, w: nat, h: nat): WandState
  {
    var m := PadSide(w, h);
    BackdropAt(e, src, m, CentredPadOffset(Width(src), w, m), CentredPadOffset(Height(src), h, m))
  }

  /** The final step of both branches (canvas.go:294-298). */
  function CropCentre(e: Engine, t: WandState, w: nat, h: nat): (WandState, Option<Error>)
  {
    Checked(e, t, CropImage(w, h, CentreOffset(Width(t), w), CentreOffset(Height(t), h)), "Could not crop: ")
  }

  /** The resize branch (canvas.go:280-298): resize to the covering size, then crop the
      centre, returning at once when the resize is refused. */
  function ResizeAndCrop(e: Engine, s: WandState, w: nat, h: nat): (WandState, Option<Error>)
    requires w > 0 && h > 0 && !PadsUp(Width(s), Height(s), w, h)
  {
    var (rw, rh) := ResizeTarget(Width(s), Height(s), w, h);
    var (t, err) := Checked(e, s, ResizeImage(rw, rh), "Could not resize: ");
    if err.Some? then (t, err) else CropCentre(e, t, w, h)
  }

  /** Canvas.Thumbnail on the wand it ends up working on: the new state of that wand and
      the error returned. */
  function ThumbnailSpec(e: Engine, s: WandState, w: nat, h: nat): (WandState, Option<Error>)
    requires w > 0 && h > 0
  {
    if PadsUp(Width(s), Height(s), w, h) then CropCentre(e, Backdrop(e, s, w, h), w, h)
    else ResizeAndCrop(e, s, w, h)
  }

  /** The corrected thumbnail: the same as ThumbnailSpec except that the pad branch
      composites the source onto the corrected backdrop. */
  function CentredThumbnailSpec(e: Engine, s: WandState, w: nat, h: nat): (WandState, Option<Error>)
    requires w > 0 && h > 0
  {
    if PadsUp(Width(s), Height(s), w, h) then CropCentre(e, CentredBackdrop(e, s, w, h), w, h)
    else ResizeAndCrop(e, s, w, h)
  }

  /** Where the top-left corner of the composited source lies in the final raster, read
      off a pixel log that holds exactly one composite followed by one crop. */
  function Placement(t: WandState): Option<(int, int)>
  {
    if t.image.None? then None
    else
      var log := t.image.value.history;
      if |log| == 2 && log[0].Composited? && log[1].Cropped?
      then Some((log[0].atX - log[1].cropX, log[0].atY - log[1].cropY))
      else None
  }

  /** With the engine accepting blanks, composites and crops, the pad branch's raster
      is the target size, its log is the composite at `(x, y)` followed by the centred
      crop, and the source therefore lies at `(x, y)` less the crop offset. */
  lemma PaddedLog(e: Engine, src: WandState, m: nat, x: int, y: int, w: nat, h: nat)
    requires src.image.Some? && 0 < w <= m && 0 < h <= m && m < TwoTo63
    requires "MagickNewImage" !in e.faults && "MagickCompositeImage" !in e.faults
             && "MagickCropImage" !in e.faults
    ensures var (t, err) := CropCentre(e, BackdropAt(e, src, m, x, y), w, h);
            err.None? && Width(t) == w && Height(t) == h
            && t.image.value.history
               == [Composited(src.image.value, x, y), Cropped(w, h, CentreOffset(m, w), CentreOffset(m, h))]
            && Placement(t) == Some((x - CentreOffset(m, w), y - CentreOffset(m, h)))
  {
    var b0 := Checked(e, EmptyWand, SetBackgroundColor(Transparent), "Could not set background color: ").0;
    assert b0 == EmptyWand;
    var b1 := Checked(e, b0, NewImage(m, m, Transparent), "Could not create image: ").0;
    assert b1.image == Some(Image(m, m, [], 0, 0, Transparent, []));
    CompositeKeepsDimensions(e, b1, src.image, x, y);
    var b := BackdropAt(e, src, m, x, y);
    assert b.image.value.history == [Composited(src.image.value, x, y)];
    var cx, cy := CentreOffset(m, w), CentreOffset(m, h);
    CentreOffsetExact(m, w);
    CentreOffsetExact(m, h);
    StepSetsDimensions(e, b, CropImage(w, h, cx, cy));
    StepAccepted(e, b, CropImage(w, h, cx, cy));
  }

  /** Canvas.Thumbnail's pad branch as written: with the engine accepting the calls, the
      thumbnail's log is the composite at `((w - W)/2, (h - H)/2)` and the crop at
      `((m - w)/2, (m - h)/2)`, so the source lands at PaddedPlacement on each axis. */
  lemma PaddedThumbnailPlacement(e: Engine, s: WandState, w: nat, h: nat)
    requires w > 0 && h > 0 && w < TwoTo63 && h < TwoTo63
    requires s.image.Some? && PadsUp(Width(s), Height(s), w, h)
    requires "MagickNewImage" !in e.faults && "MagickCompositeImage" !in e.faults
             && "MagickCropImage" !in e.faults
    ensures var m := PadSide(w, h);
            var (t, err) := ThumbnailSpec(e, s, w, h);
            err.None?
            && t.image.value.history
               == [Composited(s.image.value, CentreOffset(w, Width(s)), CentreOffset(h, Height(s))),
                   Cropped(w, h, CentreOffset(m, w), CentreOffset(m, h))]
            && Placement(t) == Some((PaddedPlacement(Width(s), w, m), PaddedPlacement(Height(s), h, m)))
  {
    PaddedLog(e, s, PadSide(w, h), CentreOffset(w, Width(s)), CentreOffset(h, Height(s)), w, h);
  }

  /** As written, a target that is not square puts a small source off centre along the
      shorter side: Thumbnail(4, 2) of a 2x2 source places it at column 1, centred, but
      at row -1, one row above the top, so its upper half is cut away where centring
      would put it at row 0. */
  lemma PadPlacementOffCentre(e: Engine, s: WandState)
    requires s.image.Some? && Width(s) == 2 && Height(s) == 2
    requires "MagickNewImage" !in e.faults && "MagickCompositeImage" !in e.faults
             && "MagickCropImage" !in e.faults
    ensures Placement(ThumbnailSpec(e, s, 4, 2).0) == Some((1, -1))
    ensures CentreOffset(4, 2) == 1 && CentreOffset(2, 2) == 0
  {
    PaddedThumbnailPlacement(e, s, 4, 2);
    SignedDifferenceExact(2, 2);
    SignedDifferenceExact(4, 2);
    SignedDifferenceExact(4, 4);
  }

  /** The corrected thumbnail puts the source at `((w - W)/2, (h - H)/2)`, so on each
      axis its two margins differ by at most one pixel whichever of source and target is
      larger, and it still yields exactly the target size without an error. */
  lemma CentredPadPlacement(e: Engine, s: WandState, w: nat, h: nat)
    requires w > 0 && h > 0 && w < TwoTo63 && h < TwoTo63
    requires s.image.Some? && Width(s) < TwoTo63 && Height(s) < TwoTo63 && PadsUp(Width(s), Height(s), w, h)
    requires "MagickNewImage" !in e.faults && "MagickCompositeImage" !in e.faults
             && "MagickCropImage" !in e.faults
    ensures var (t, err) := CentredThumbnailSpec(e, s, w, h);
            err.None? && Width(t) == w && Height(t) == h
            && Placement(t) == Some((CentreOffset(w, Width(s)), CentreOffset(h, Height(s))))
    ensures -1 <= 2 * CentreOffset(w, Width(s)) - (w - Width(s)) <= 1
    ensures -1 <= 2 * CentreOffset(h, Height(s)) - (h - Height(s)) <= 1
  {
    var m := PadSide(w, h);
    PaddedLog(e, s, m, CentredPadOffset(Width(s), w, m), CentredPadOffset(Height(s), h, m), w, h);
    CentreOffsetExact(w, Width(s));
    CentreOffsetExact(h, Height(s));
  }

  /** A crop centred on a raster at least as large as the target gives exactly the
      target, unless the engine refuses crops. */
  lemma CropCentreExact(e: Engine, t: WandState, w: nat, h: nat)
    requires w > 0 && h > 0 && t.image.Some? && "MagickCropImage" !in e.faults
    requires w <= Width(t) < TwoTo63 && h <= Height(t) < TwoTo63
    ensures CropCentre(e, t, w, h).1.None?
    ensures Width(CropCentre(e, t, w, h).0) == w && Height(CropCentre(e, t, w, h).0) == h
  {
    var x := CentreOffset(Width(t), w);
    var y := CentreOffset(Height(t), h);
    CentreOffsetExact(Width(t), w);
    CentreOffsetExact(Height(t), h);
    StepSetsDimensions(e, t, CropImage(w, h, x, y));
  }

  /** A backdrop is an `m x m` square whatever happens to the composite. */
  lemma BackdropAtSize(e: Engine, src: WandState, m: nat, x: int, y: int)
    requires m > 0 && "MagickNewImage" !in e.faults
    ensures var b := BackdropAt(e, src, m, x, y);
            b.image.Some? && Width(b) == m && Height(b) == m
  {
    var b0 := Checked(e, EmptyWand, SetBackgroundColor(Transparent), "Could not set background color: ").0;
    assert b0 == EmptyWand;
    var b1 := Checked(e, b0, NewImage(m, m, Transparent), "Could not create image: ").0;
    assert Width(b1) == m && Height(b1) == m;
    CompositeKeepsDimensions(e, b1, src.image, x, y);
  }

  /** The backdrop is a `max(w, h)` square whatever happens to the composite. */
  lemma BackdropSize(e: Engine, src: WandState, w: nat, h: nat)
    requires w > 0 && h > 0 && "MagickNewImage" !in e.faults
    ensures var b := Backdrop(e, src, w, h);
            b.image.Some? && Width(b) == PadSide(w, h) && Height(b) == PadSide(w, h)
  {
    BackdropAtSize(e, src, PadSide(w, h), CentreOffset(w, Width(src)), CentreOffset(h, Height(src)));
  }

  /** Thumbnail(w, h) leaves a raster of exactly `w x h` and returns no error whenever
      the engine accepts blanks, resizes and crops: in the pad branch the square backdrop
      covers the target, in the resize branch the resize target does. Which of the two
      is taken is the exact comparison of the ratio with 1. */
  lemma ThumbnailExactSize(e: Engine, s: WandState, w: nat, h: nat)
    requires w > 0 && h > 0 && w < TwoTo63 && h < TwoTo63
    requires Width(s) < TwoTo63 && Height(s) < TwoTo63
    requires "MagickNewImage" !in e.faults && "MagickResizeImage" !in e.faults && "MagickCropImage" !in e.faults
    ensures ThumbnailSpec(e, s, w, h).1.None?
    ensures Width(ThumbnailSpec(e, s, w, h).0) == w && Height(ThumbnailSpec(e, s, w, h).0) == h
  {
    var W := Width(s);
    var H := Height(s);
    if PadsUp(W, H, w, h) {
      BackdropSize(e, s, w, h);
      CropCentreExact(e, Backdrop(e, s, w, h), w, h);
    } else {
      var (rw, rh) := ResizeTarget(W, H, w, h);
      ResizeTargetCovers(W, H, w, h);
      assert s.image.Some?;
      StepSetsDimensions(e, s, ResizeImage(rw, rh));
      var t := Step(e, s, ResizeImage(rw, rh)).0;
      CropCentreExact(e, t, w, h);
    }
  }

  /** The corrected thumbnail keeps the size guarantee: exactly `w x h` and no error
      whenever the engine accepts blanks, resizes and crops. */
  lemma CentredThumbnailExactSize(e: Engine, s: WandState, w: nat, h: nat)
    requires w > 0 && h > 0 && w < TwoTo63 && h < TwoTo63
    requires Width(s) < TwoTo63 && Height(s) < TwoTo63
    requires "MagickNewImage" !in e.faults && "MagickResizeImage" !in e.faults && "MagickCropImage" !in e.faults
    ensures CentredThumbnailSpec(e, s, w, h).1.None?
    ensures Width(CentredThumbnailSpec(e, s, w, h).0) == w && Height(CentredThumbnailSpec(e, s, w, h).0) == h
  {
    var m := PadSide(w, h);
    if PadsUp(Width(s), Height(s), w, h) {
      BackdropAtSize(e, s, m, CentredPadOffset(Width(s), w, m), CentredPadOffset(Height(s), h, m));
      CropCentreExact(e, CentredBackdrop(e, s, w, h), w, h);
    } else {
      ThumbnailExactSize(e, s, w, h);
    }
  }

  /** A refused resize is returned at once: the raster keeps its size and no crop runs. */
  lemma ThumbnailResizeFailure(e: Engine, s: WandState, w: nat, h: nat)
    requires w > 0 && h > 0 && !PadsUp(Width(s), Height(s), w, h)
    requires "MagickResizeImage" in e.faults
    ensures ThumbnailSpec(e, s, w, h).1 == Some(Errorf("Could not resize: " + e.faults["MagickResizeImage"]))
    ensures ThumbnailSpec(e, s, w, h).0 == s.(exception := "")
  {
    assert s.image.Some?;
    ResizeTargetCovers(Width(s), Height(s), w, h);
  }
}
