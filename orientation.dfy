/** EXIF auto-orientation (Canvas.AutoOrientate, canvas.go:132-182): read the
    `exif:Orientation` property, parse it with strconv.Atoi, convert it to `uint`, and run
    the fixed correction for each of the eight Orientation tag values of section 4.6.4 A of
    Exif 2.2 (tag 0x0112); then set the image's orientation field to top-left and write the
    property back. */
module Orientation {
  import opened Wrappers
  import opened GoInt
  import opened GoStrings
  import opened Strconv
  import opened Magick
  import opened Failures
  import opened Metadata

  /** ImageMagick's OrientationType. */
  datatype OrientationType =
    | UndefinedOrientation
    | TopLeft
    | TopRight
    | BottomRight
    | BottomLeft
    | LeftTop
    | RightTop
    | RightBottom
    | LeftBottom

  function Code(o: OrientationType): (c: nat)
    ensures c <= 8
  {
    match o
    case UndefinedOrientation => 0
    case TopLeft => 1
    case TopRight => 2
    case BottomRight => 3
    case BottomLeft => 4
    case LeftTop => 5
    case RightTop => 6
    case RightBottom => 7
    case LeftBottom => 8
  }

  function FromCode(u: nat): (o: Option<OrientationType>)
    ensures o.Some? <==> u <= 8
    ensures o.Some? ==> Code(o.value) == u
  {
    if u == 0 then Some(UndefinedOrientation)
    else if u == 1 then Some(TopLeft)
    else if u == 2 then Some(TopRight)
    else if u == 3 then Some(BottomRight)
    else if u == 4 then Some(BottomLeft)
    else if u == 5 then Some(LeftTop)
    else if u == 6 then Some(RightTop)
    else if u == 7 then Some(RightBottom)
    else if u == 8 then Some(LeftBottom)
    else None
  }

  const OrientationKey: string := "exif:Orientation"

  /** `(string)(TOP_LEFT_ORIENTATION)`: converting the integer 1 to a string gives the
      one-rune string U+0001, not "1". */
  const TopLeftTag: string := [1 as char]

  const NoOrientationData: Error := Errorf("No orientation data found in file.")

  /** The switch at canvas.go:142-171: the engine calls each case makes, in order, with
      RotateCanvas(k * pi/2) as k quarter turns (positive is clockwise). The undefined
      orientation has no case and falls to the default branch. */
  function Corrections(o: OrientationType): (plan: Option<seq<Request>>)
    ensures plan.Some? <==> o != UndefinedOrientation
    ensures plan.Some? ==> |plan.value| <= 2
    ensures plan.Some? ==>
              forall i :: 0 <= i < |plan.value| ==>
                plan.value[i].FlopImage? || plan.value[i].FlipImage? || plan.value[i].RotateImage?
  {
    match o
    case UndefinedOrientation => None
    case TopLeft => Some([])
    case TopRight => Some([FlopImage])
    case BottomRight => Some([RotateImage(2)])
    case BottomLeft => Some([FlipImage])
    case LeftTop => Some([FlipImage, RotateImage(-1)])
    case RightTop => Some([RotateImage(-1)])
    case RightBottom => Some([FlopImage, RotateImage(-1)])
    case LeftBottom => Some([RotateImage(1)])
  }

  /** Parse the tag and pick the corrections, or the error AutoOrientate returns. */
  function Dispatch(raw: string): (r: Result<seq<Request>, Error>)
    ensures r.Failure? ==> r.error == NoOrientationData || (r.error.Num? && r.error.cause.num == raw)
    ensures r.Success? ==> |r.value| <= 2
  {
    match Atoi(raw)
    case Failure(e) => Failure(Num(e))
    case Success(n) =>
      var o := FromCode(Wrap64(n));
      if o.None? || Corrections(o.value).None? then Failure(NoOrientationData)
      else Success(Corrections(o.value).value)
  }

  /** The prefix each façade method puts before the drained diagnostic (Flip's reuses
      Flop's wording, canvas.go:239). */
  function Prefix(r: Request): string
  {
    match r
    case FlopImage => "Could not flop image: "
    case FlipImage => "Could not flop image: "
    case RotateImage(_) => "Could not rotate image: "
    case _ => ""
  }

  /** The corrections run through Flop/Flip/RotateCanvas, whose errors AutoOrientate drops. */
  function RunIgnoringErrors(e: Engine, s: WandState, plan: seq<Request>): WandState
    decreases |plan|
  {
    if plan == [] then s
    else RunIgnoringErrors(e, Checked(e, s, plan[0], Prefix(plan[0])).0, plan[1..])
  }

  /** Running one or two corrections is making those calls in order. */
  lemma RunShort(e: Engine, s: WandState, a: Request, b: Request)
    ensures RunIgnoringErrors(e, s, []) == s
    ensures RunIgnoringErrors(e, s, [a]) == Checked(e, s, a, Prefix(a)).0
    ensures RunIgnoringErrors(e, s, [a, b])
            == Checked(e, Checked(e, s, a, Prefix(a)).0, b, Prefix(b)).0
  {
    assert [a][1..] == [];
    assert [a, b][1..] == [b];
    var s1 := Checked(e, s, a, Prefix(a)).0;
    assert RunIgnoringErrors(e, s1, [b]) == Checked(e, s1, b, Prefix(b)).0 by {
      assert [b][1..] == [];
    }
  }

  /** The raw tag value the switch sees: "" when the key is missing. */
  function RawTag(s: WandState): string
  {
    var data := MetadataOf(s);
    if OrientationKey in data then data[OrientationKey] else ""
  }

  /** The whole of AutoOrientate: the new wand state and the error returned. */
  function AutoOrientateSpec(e: Engine, s: WandState): (res: (WandState, Option<Error>))
    ensures Dispatch(RawTag(s)).Failure? ==> res.0.image == s.image && res.1 == Some(Dispatch(RawTag(s)).error)
  {
    var s0 := AfterMetadata(s);
    match Dispatch(RawTag(s))
    case Failure(err) => (s0, Some(err))
    case Success(plan) => Correct(e, s0, plan)
  }

  /** The part of AutoOrientate after the switch has chosen the corrections. */
  function Correct(e: Engine, s0: WandState, plan: seq<Request>): (res: (WandState, Option<Error>))
    ensures res.1.None? ==> res.0.image.Some? && res.0.image.value.orientation == Code(TopLeft)
  {
    var s1 := RunIgnoringErrors(e, s0, plan);
    var (s2, err2) := Checked(e, s1, SetOrientation(Code(TopLeft)), "Could not orientate photo: ");
    if err2.Some? then (s2, err2)
    else (Checked(e, s2, SetProperty(OrientationKey, TopLeftTag), "Could not set metadata: ").0, None)
  }

  /** Dispatch succeeds exactly when the tag parses to one of the eight defined codes, and
      then yields that code's corrections; otherwise it returns the Atoi error or, for any
      other integer (0, negatives, 9 and up), "No orientation data". */
  lemma DispatchIff(raw: string)
    ensures Dispatch(raw).Success? <==> Atoi(raw).Success? && 1 <= Atoi(raw).value <= 8
    ensures Dispatch(raw).Success? ==>
              Dispatch(raw).value == Corrections(FromCode(Atoi(raw).value).value).value
    ensures Atoi(raw).Failure? ==> Dispatch(raw) == Failure(Num(Atoi(raw).error))
    ensures Atoi(raw).Success? && !(1 <= Atoi(raw).value <= 8) ==> Dispatch(raw) == Failure(NoOrientationData)
  {
    if Atoi(raw).Success? {
      var n := Atoi(raw).value;
      AtoiSuccessIff(raw);
      if n < 0 {
        assert Wrap64(n) == n + TwoTo64;
      }
    }
  }

  /** Whether a correction contains a quarter turn. */
  predicate Transposes(o: OrientationType)
  {
    o.LeftTop? || o.RightTop? || o.RightBottom? || o.LeftBottom?
  }


  /** Under any engine, codes 5-8 swap width and height exactly when the engine accepts the
      rotation, and codes 1-4 always keep them: flips and flops never change the size, and
      the only rotation among codes 1-4 is a half turn. */
  lemma CorrectionDimensions(e: Engine, s: WandState, o: OrientationType)
    requires Corrections(o).Some?
    ensures var t := RunIgnoringErrors(e, s, Corrections(o).value);
            if Transposes(o) && s.image.Some? && "MagickRotateImage" !in e.faults
            then Width(t) == Height(s) && Height(t) == Width(s)
            else Width(t) == Width(s) && Height(t) == Height(s)
  {
    var plan := Corrections(o).value;
    if |plan| == 2 {
      var s1 := Checked(e, s, plan[0], Prefix(plan[0])).0;
      StepDimensions(e, s, plan[0]);
      assert s1.image.Some? == s.image.Some?;
      StepDimensions(e, s1, plan[1]);
      assert plan[1..][1..] == [];
      assert RunIgnoringErrors(e, s, plan) == Checked(e, s1, plan[1], Prefix(plan[1])).0;
    } else if |plan| == 1 {
      StepDimensions(e, s, plan[0]);
      assert plan[1..] == [];
      assert RunIgnoringErrors(e, s, plan) == Checked(e, s, plan[0], Prefix(plan[0])).0;
    }
  }

  /** The pixel-log entry an accepted correction leaves. */
  function Logged(r: Request): PixelOp
    requires r.FlopImage? || r.FlipImage? || r.RotateImage?
  {
    match r
    case FlopImage => Flopped
    case FlipImage => Flipped
    case RotateImage(q) => Rotated(q)
  }

  predicate IsCorrection(plan: seq<Request>)
  {
    forall i :: 0 <= i < |plan| ==> plan[i].FlopImage? || plan[i].FlipImage? || plan[i].RotateImage?
  }

  function LogOf(plan: seq<Request>): seq<PixelOp>
    requires IsCorrection(plan)
    decreases |plan|
  {
    if plan == [] then [] else [Logged(plan[0])] + LogOf(plan[1..])
  }

  /** One correction: it needs only an image and the engine's consent, and it touches
      neither the properties nor the orientation field. */
  lemma StepCorrection(e: Engine, s: WandState, r: Request)
    requires s.image.Some? && (r.FlopImage? || r.FlipImage? || r.RotateImage?)
    ensures var (t, ok) := Step(e, s, r);
            t.image.Some? && (ok <==> Name(r) !in e.faults)
            && t.image.value.props == s.image.value.props
            && t.image.value.orientation == s.image.value.orientation
            && (ok ==> t.image.value.history == s.image.value.history + [Logged(r)])
  {
    assert NeedsImage(r) && !MissesImage(s.image.value, r);
  }

  /** With an engine that refuses nothing, the corrections log exactly their own steps
      and leave the properties and the orientation field alone. */
  lemma {:induction false} RunWithoutFaults(e: Engine, s: WandState, plan: seq<Request>)
    requires e.faults == map[] && s.image.Some? && IsCorrection(plan)
    ensures var t := RunIgnoringErrors(e, s, plan);
            t.image.Some? && t.exception == s.exception
            && t.image.value.history == s.image.value.history + LogOf(plan)
            && t.image.value.props == s.image.value.props
            && t.image.value.orientation == s.image.value.orientation
    decreases |plan|
  {
    if plan != [] {
      StepCorrection(e, s, plan[0]);
      var s1 := Step(e, s, plan[0]).0;
      assert Checked(e, s, plan[0], Prefix(plan[0])).0 == s1;
      assert RunIgnoringErrors(e, s, plan) == RunIgnoringErrors(e, s1, plan[1..]);
      assert IsCorrection(plan[1..]) by {
        forall i | 0 <= i < |plan[1..]|
          ensures plan[1..][i].FlopImage? || plan[1..][i].FlipImage? || plan[1..][i].RotateImage?
        {
          assert plan[1..][i] == plan[i + 1];
        }
      }
      RunWithoutFaults(e, s1, plan[1..]);
      assert LogOf(plan) == [Logged(plan[0])] + LogOf(plan[1..]);
      assert s.image.value.history + LogOf(plan)
          == (s.image.value.history + [Logged(plan[0])]) + LogOf(plan[1..]);
    }
  }

  lemma CorrectionsAreCorrections(o: OrientationType)
    requires Corrections(o).Some?
    ensures IsCorrection(Corrections(o).value)
  {
  }

  /** A tag that is missing, not a decimal integer, or not one of the eight codes returns
      that error before any transform runs: the image is untouched. */
  lemma AutoOrientateRejects(e: Engine, s: WandState)
    requires Dispatch(RawTag(s)).Failure?
    ensures AutoOrientateSpec(e, s).0.image == s.image
    ensures AutoOrientateSpec(e, s).1 == Some(Dispatch(RawTag(s)).error)
  {
  }

  /** With an engine that refuses nothing, a defined tag's corrections are applied in
      order, the orientation field becomes top-left, the property is rewritten to the
      one-rune string U+0001, and no error is returned. */
  lemma AutoOrientateApplies(e: Engine, s: WandState)
    requires e.faults == map[] && s.image.Some? && Dispatch(RawTag(s)).Success?
    ensures var plan := Dispatch(RawTag(s)).value;
            var (t, err) := AutoOrientateSpec(e, s);
            IsCorrection(plan) && err.None? && t.image.Some?
            && t.image.value.orientation == Code(TopLeft)
            && t.image.value.history == s.image.value.history + LogOf(plan)
            && t.image.value.props == SetProp(s.image.value.props, OrientationKey, TopLeftTag)
  {
    var plan := Dispatch(RawTag(s)).value;
    DispatchIff(RawTag(s));
    CorrectionsAreCorrections(FromCode(Atoi(RawTag(s)).value).value);
    assert AutoOrientateSpec(e, s) == Correct(e, s, plan);
    CorrectWithoutFaults(e, s, plan);
  }

  lemma CorrectWithoutFaults(e: Engine, s: WandState, plan: seq<Request>)
    requires e.faults == map[] && s.image.Some? && IsCorrection(plan)
    ensures var (t, err) := Correct(e, s, plan);
            err.None? && t.image.Some?
            && t.image.value.orientation == Code(TopLeft)
            && t.image.value.history == s.image.value.history + LogOf(plan)
            && t.image.value.props == SetProp(s.image.value.props, OrientationKey, TopLeftTag)
  {
    RunWithoutFaults(e, s, plan);
    var s1 := RunIgnoringErrors(e, s, plan);
    var r2 := SetOrientation(Code(TopLeft));
    StepAccepted(e, s1, r2);
    var s2 := Step(e, s1, r2).0;
    assert Checked(e, s1, r2, "Could not orientate photo: ") == (s2, None);
    var r3 := SetProperty(OrientationKey, TopLeftTag);
    StepAccepted(e, s2, r3);
    var s3 := Step(e, s2, r3).0;
    assert Checked(e, s2, r3, "Could not set metadata: ").0 == s3;
  }


  /** A refused MagickSetImageOrientation is the one engine failure AutoOrientate reports
      after the corrections, with the engine's own diagnostic; the property is then not
      rewritten. */
  lemma AutoOrientateReportsOrientationFailure(e: Engine, s: WandState)
    requires s.image.Some? && Dispatch(RawTag(s)).Success?
    requires "MagickSetImageOrientation" in e.faults
    ensures var (t, err) := AutoOrientateSpec(e, s);
            err == Some(Errorf("Could not orientate photo: " + e.faults["MagickSetImageOrientation"]))
            && t.image.Some? && t.image.value.props == s.image.value.props
  {
    var plan := Dispatch(RawTag(s)).value;
    DispatchIff(RawTag(s));
    CorrectionsAreCorrections(FromCode(Atoi(RawTag(s)).value).value);
    assert AutoOrientateSpec(e, s) == Correct(e, s, plan);
    RunKeepsProps(e, s, plan);
  }

  /** Whatever the engine refuses, the corrections keep an image and its properties. */
  lemma {:induction false} RunKeepsProps(e: Engine, s: WandState, plan: seq<Request>)
    requires s.image.Some? && IsCorrection(plan)
    ensures var t := RunIgnoringErrors(e, s, plan);
            t.image.Some? && t.image.value.props == s.image.value.props
    decreases |plan|
  {
    if plan != [] {
      var s1 := Checked(e, s, plan[0], Prefix(plan[0])).0;
      assert IsCorrection(plan[1..]) by {
        forall i | 0 <= i < |plan[1..]|
          ensures plan[1..][i].FlopImage? || plan[1..][i].FlipImage? || plan[1..][i].RotateImage?
        {
          assert plan[1..][i] == plan[i + 1];
        }
      }
      RunKeepsProps(e, s1, plan[1..]);
    }
  }

  /** AutoOrientate is not idempotent: the tag it writes back is U+0001, not "1", so a
      second call fails to parse it and returns a syntax error from Atoi. */
  lemma AutoOrientateNotIdempotent(e: Engine, s: WandState)
    requires e.faults == map[] && s.image.Some? && Dispatch(RawTag(s)).Success?
    requires forall i :: 0 <= i < |s.image.value.props| && Trim(s.image.value.props[i].key) == OrientationKey
               ==> s.image.value.props[i].key == OrientationKey
    ensures AutoOrientateSpec(e, AutoOrientateSpec(e, s).0).1
              == Some(Num(NumError("Atoi", TopLeftTag, ErrSyntax)))
  {
    AutoOrientateApplies(e, s);
    var t := AutoOrientateSpec(e, s).0;
    var props := SetProp(s.image.value.props, OrientationKey, TopLeftTag);
    SetPropKeys(s.image.value.props, OrientationKey, TopLeftTag);
    assert Trimmed(OrientationKey);
    assert Trimmed(TopLeftTag);
    MetadataLookup(props, OrientationKey);
    TrimmedIsFixed(TopLeftTag);
    assert RawTag(t) == TopLeftTag;
    AtoiRejectsEmptyAndControl();
  }
}
