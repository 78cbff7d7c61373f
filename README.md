# gosexy/canvas in Dafny

gosexy/canvas is a Go façade, built with cgo, over ImageMagick's MagickWand C API. A
`Canvas` holds one raster handle, four colour handles (foreground, background, fill,
stroke) and one drawing handle. Its methods turn a Go call into one or a few engine calls.
On a refusal, they drain the engine's pending diagnostic into a Go `error`. On top of that
the package has a few pieces of real logic:

- EXIF auto-orientation: parse the `exif:Orientation` tag, run the fixed flips and
  rotations for codes 1 to 8, then reset the tag;
- the thumbnail planner: pad onto a square backdrop or resize, then crop a centred
  `w x h`;
- metadata collection, which trims spaces and lets the last duplicate key win;
- the drawing-settings stack;
- the text-properties record kept beside the drawing wand;
- the older `canvas/canvas.go` API, which answers `bool` and never drains diagnostics.

The model treats the engine as an abstract raster. An image is its width, height, property
list, orientation field, quality, background colour and a log of the pixel operations
applied to it (`Magick.Image`). Every engine call is a pure transition `Magick.Step`, and
its refusals come from three sources:

- a missing image on the wand, or on the source wand of a composite (both reported as ContainsNoImages);
- a zero size, or a crop or chop region the engine cannot take;
- a fault table `Engine.faults`, keyed by C function name, which stands for any refusal
  the engine may make.

The handles are classes:

- `Magick.MagickWand`, `Magick.PixelWand` and `Drawing.DrawingWand`;
- the two canvases, `Canvas.Canvas` and `Legacy.Canvas`;
- the text record, `TextRecord.TextProperties`.

The methods of these classes are proved against pure specification functions:

- `Failures.Checked` for "call and drain";
- `Orientation.AutoOrientateSpec`;
- `Thumbnail.ThumbnailSpec`;
- `Metadata.MetadataOf`;
- `Text.AnnotateAsWritten`.

What the source promises is then proved about those functions as lemmas.

Every `canvas.go` method has a value receiver. What a method does through a handle is
seen by the caller. Its assignments to the struct's own fields are not:

- `filename` at canvas.go:127;
- the replacement wand at canvas.go:283;
- the `nil` at canvas.go:580.

The model therefore never changes those fields. `Thumbnail` returns the wand it finished
on as an out-parameter, so that the work done in the pad branch is observable. The
corrected `Canvas.Canvas.ThumbnailInPlace` and `Canvas.Canvas.Release` act on the
caller's canvas, as pointer receivers would (see "## Findings").

Integer conversions are written out:

- `GoInt.Wrap64` is Go's `uint` wrap-around;
- `GoInt.ToInt64` reinterprets a value as a 64-bit `int`;
- `GoInt.Quo` is Go's `/`, which truncates toward zero.

The float64 ratio of `Thumbnail` is replaced by exact rationals.

## Model

| member | source | states |
|---|---|---|
| GoInt.Wrap64 | canvas.go:294 | a `uint` result lies in [0, 2^64) and equals the mathematical value when that is in range, or that value plus 2^64 when it is a small negative number |
| GoInt.ToInt64 | canvas.go:294 | `int(u)` of a `uint` lies in the int64 range and is congruent to `u` modulo 2^64 |
| GoInt.SignedDifference | canvas.go:294 | `int(a - b)` on `uint`s always lies in the int64 range |
| GoInt.SignedDifferenceExact | canvas.go:294 | for operands below 2^63, `int(a - b)` is the true difference, even when `a < b` |
| GoInt.Quo | canvas.go:278 | Go's `/` is floor division for a non-negative dividend, and the negated quotient of the magnitude for a negative one |
| GoInt.QuoHalf | canvas.go:278 | `x/2` truncated toward zero, doubled, is within one of `x`, on the side of zero |
| GoInt.QuoTruncatesTowardZero | canvas.go:278 | `-3/2` is -1 in Go but -2 in Euclidean division, so the two operators differ on negative offsets |
| GoInt.Min | canvas.go:264 | `math.Min` is a lower bound of both arguments and is one of them |
| GoInt.Max | canvas.go:268 | `math.Max`, which gives the side of the pad branch's square backdrop, is an upper bound of both arguments and is one of them |
| GoStrings.Trim | canvas.go:200 | `strings.Trim(s, " ")`: the leading and then the trailing spaces removed; its shape is stated by `GoStrings.TrimShape` |
| GoStrings.TrimShape | canvas.go:200 | `strings.Trim(s, " ")` is a contiguous slice of `s` that neither starts nor ends with a space |
| GoStrings.TrimIdempotent | canvas.go:200 | trimming twice is trimming once |
| GoStrings.TrimmedIsFixed | canvas.go:200 | a string with no leading or trailing space is left unchanged |
| GoStrings.TrimKeepsTabs | canvas.go:200 | only the space character is cut: `" \tx "` trims to `"\tx"` |
| Strconv.Atoi | canvas.go:136 | `strconv.Atoi` with a 64-bit `int`: a value always lies in the int64 range, and a failure always carries "Atoi" and the input |
| Strconv.AtoiSuccessIff | canvas.go:136-140 | `strconv.Atoi` succeeds exactly on an optional sign followed by one or more decimal digits whose value fits in int64, and then returns that value |
| Strconv.AtoiErrorCarriesInput | canvas.go:136-140 | every Atoi failure is a NumError naming "Atoi" and carrying the input |
| Strconv.AtoiRejectsEmptyAndControl | canvas.go:136-140 | a missing tag (the empty string) and the one-rune tag U+0001 both fail with a syntax error |
| Strconv.AtoiOneDigit | canvas.go:136-140 | a single digit, with or without a sign, parses to its value |
| Colors.ParseColor | canvas.go:403 | the colour grammar of the model's engine: a colour exactly for "none" (transparent) or "#rrggbb", opaque in the second case |
| Colors.HexColor | canvas.go:96-104 | `getPixelHexColor` yields "#" and six lowercase hex digits |
| Colors.ParseHexColor | canvas.go:96-104 | parsing the hex string of a colour gives back its red, green and blue, as an opaque colour |
| Colors.HexColorOfParse | canvas.go:479-487 | setting a colour from "#rrggbb" and reading it back gives the same spec in lowercase |
| Colors.DefaultSpecs | canvas.go:713-723 | the default specs "#ffffff", "#888888" and "#000000" denote white, mid-grey and black, and the first two read back unchanged |
| Colors.NoneReadsAsBlack | canvas.go:414-416 | "none" is transparent black, which `BackgroundColor` reports as "#000000", the same as opaque black |
| Drawing.MagickBoolean | canvas.go:107-112 | `magickBoolean` answers MagickTrue or MagickFalse |
| Drawing.MagickBooleanRoundTrip | canvas.go:419-430 | `magickBoolean(b)` is MagickTrue iff `b`, it is one-to-one, and the getter reads the flag back unchanged |
| Drawing.Push | canvas.go:544-552 | a push appends the current settings to the stack and changes neither the settings nor the commands |
| Drawing.Pop | canvas.go:555-563 | a pop is refused exactly on an empty stack; otherwise it restores the most recent save, drops it, and keeps every command |
| Drawing.Emit | canvas.go:501-503 | a shape is appended to the commands together with the settings current at that moment, and the settings are unchanged |
| Drawing.PushPopRestores | canvas.go:543-563 | whatever happens between a push and its pop, the pop restores the settings and the stack from before the push and keeps the commands drawn in between |
| Drawing.NestedPushPop | canvas.go:543-563 | pushes and pops nest last-in first-out: two pushes and two pops give back first the inner and then the outer settings |
| Magick.Step | canvas.go:227-233 | one engine call: a refused call changes only the pending diagnostic, an accepted one leaves the diagnostic as it was |
| Magick.Apply | canvas.go:227-233 | the effect of an accepted call on the image, one log entry per pixel operation |
| Magick.MissesImage | canvas.go:632-651 | the region requests the engine refuses with a geometry diagnostic: a crop that keeps nothing, a chop wholly before or past the image |
| Magick.StepCropAndChop | canvas.go:632-651 | a crop outside the image gives a 1x1 transparent image and succeeds; otherwise it is clipped, a zero width or height meaning the whole side, and fails exactly when nothing is left; a chop removes the clipped region and is refused only outside the image |
| Magick.GetProp | canvas.go:198 | the first value stored under a key, "" when there is none |
| Magick.SetProp | canvas.go:219 | after the update the key reads back the value set |
| Magick.Names | canvas.go:194 | one name per property, in the list's order |
| Magick.StepDimensions | canvas.go:142-167 | flop, flip and any rotation by an even number of quarter turns keep the dimensions; an accepted odd quarter turn swaps them |
| Magick.StepSetsDimensions | canvas.go:258-301 | an accepted resize, blank or in-bounds crop gives exactly the requested size, and such a crop is refused only by an engine fault |
| Magick.CompositeKeepsDimensions | canvas.go:304-312 | compositing keeps the destination's size; it succeeds exactly when both wands hold an image and the engine does not refuse, and then logs the source and offset; a destination or source wand without an image is refused with ContainsNoImages before any other check |
| Magick.StepAccepted | canvas.go:227-233 | a call the engine has no reason to refuse is applied to the image and answers MagickTrue |
| Magick.SetPropKeepsOthers | canvas.go:218-224 | setting one property leaves every other key's value unchanged |
| Magick.SetPropKeys | canvas.go:218-224 | after setting a key it is present, and every other entry was there before |
| Magick.GetPropPresent | canvas.go:198 | a non-empty property value comes from an entry with exactly that key |
| Magick.ClampFactor | canvas.go:656-657 | the factor is clamped into [-1, 1], unchanged inside, to -1 below and to 1 above |
| Magick.ModulationPercent | canvas.go:654-666 | the percentage passed to the engine is `100 + 100*factor` for factors in range, and always lies in [0, 200] |
| Magick.PixelWand.SetColor | canvas.go:403 | answers true exactly when the spec reads as a colour, which the handle then holds; otherwise the handle's colour is unchanged |
| Magick.Disk.Write | canvas.go:343-349 | the file at the path holds the image exactly when the engine accepts the write |
| Magick.ReadFrom | canvas/canvas.go:96 | the engine reads the content of a regular file and refuses a missing path or a directory |
| Failures.Checked | canvas.go:227-233 | an engine call plus drain: no error exactly when the engine accepts; on a refusal the error is the prefix followed by the engine's diagnostic, and the diagnostic is cleared |
| Failures.CheckedDrains | canvas.go:227-233 | a refused flop returns the fault's message behind "Could not flop image: " and leaves the image untouched with the diagnostic cleared |
| Metadata.Collect | canvas.go:196-204 | the map after the first `n` rounds of the loop; its keys and values are stated by the lemmas below |
| Metadata.MetadataOf | canvas.go:185-207 | the metadata map of a wand, empty without an image |
| Metadata.CollectTrimmed | canvas.go:196-204 | no key and no value of the metadata map starts or ends with a space |
| Metadata.CollectKeys | canvas.go:196-204 | the map's keys are exactly the trimmed property names |
| Metadata.CollectLastWins | canvas.go:196-204 | when several names trim to the same key, the value comes from the last of them |
| Metadata.MetadataLookup | canvas.go:185-207 | a trimmed key that only one spelling maps to is found with its trimmed value |
| Metadata.TrimCollisionExample | canvas.go:200 | properties " a "=" 2 " and "a"="1", listed in that key order, collect to the single entry "a"="1" |
| Orientation.Code | canvas.go:63-71 | the orientation codes lie in 0..8 |
| Orientation.FromCode | canvas.go:142-171 | only 0..8 name an orientation, and the name gives back its code |
| Orientation.Corrections | canvas.go:142-171 | a plan exactly for the eight defined orientations, of at most two flips, flops or rotations |
| Orientation.Dispatch | canvas.go:134-171 | a plan of at most two calls, or "No orientation data found in file." or the Atoi error for the tag itself |
| Orientation.AutoOrientateSpec | canvas.go:132-182 | a tag that selects no plan returns its error and leaves the image as it was |
| Orientation.Correct | canvas.go:173-181 | no error means the image's orientation field is top-left |
| Orientation.DispatchIff | canvas.go:134-171 | the tag selects corrections exactly when it parses to 1..8; otherwise the result is the Atoi error or "No orientation data found in file." |
| Orientation.CorrectionDimensions | canvas.go:142-167 | the corrections for codes 5 to 8 swap width and height when rotations are accepted; codes 1 to 4 keep the size |
| Orientation.RunWithoutFaults | canvas.go:142-167 | without faults, the corrections apply exactly their flips and rotations in order and keep properties, orientation and diagnostic |
| Orientation.RunKeepsProps | canvas.go:142-167 | the corrections never change the image's properties, even when some are refused |
| Orientation.AutoOrientateRejects | canvas.go:134-171 | a missing, malformed or out-of-range tag returns its error, and no correction runs and nothing is written |
| Orientation.AutoOrientateApplies | canvas.go:132-182 | with a valid tag and no faults, the code's corrections are applied, the orientation becomes top-left, the tag is rewritten and no error is returned |
| Orientation.CorrectWithoutFaults | canvas.go:173-181 | after the corrections the orientation field is set to top-left and the tag is written back |
| Orientation.AutoOrientateReportsOrientationFailure | canvas.go:173-177 | a refused orientation update returns "Could not orientate photo: " and the diagnostic, and the tag is not written |
| Orientation.AutoOrientateNotIdempotent | canvas.go:179 | the tag is written back as the rune U+0001, so a second auto-orientation fails with an Atoi syntax error |
| Thumbnail.CentreOffset | canvas.go:294 | `int(int(a-b)/2)` on `uint`s; its value is stated by `Thumbnail.CentreOffsetExact` |
| Thumbnail.ResizeTarget | canvas.go:285-287 | the resize target; stated by `Thumbnail.ResizeTargetIsExactRatio` and `Thumbnail.ResizeTargetCovers` |
| Thumbnail.Backdrop | canvas.go:271-278 | the pad branch's replacement raster: a transparent `max(w,h)` square with the source composited at `((w-W)/2, (h-H)/2)` |
| Thumbnail.CropCentre | canvas.go:294-298 | the final centred crop and its drained error |
| Thumbnail.ThumbnailSpec | canvas.go:258-301 | the thumbnail's raster and error as written; stated by the Thumbnail lemmas below |
| Thumbnail.CentredThumbnailSpec | canvas.go:258-301 | the corrected thumbnail, which composites at the offsets that survive the crop |
| Thumbnail.Placement | canvas.go:278-294 | where the composited source's corner lies in the final raster, read off its log |
| Thumbnail.RatioBelowOneIff | canvas.go:264-266 | the exact ratio `min(W/w, H/h)` is below 1 exactly when the source is narrower or shorter than the target |
| Thumbnail.CentreOffsetExact | canvas.go:294 | the centring offset `int(int(a-b)/2)` is `(a-b)/2` truncated toward zero, inside `[0, a-b]` when `a >= b` |
| Thumbnail.ResizeTargetIsExactRatio | canvas.go:285-287 | the integer resize target equals `(floor(W/ratio), floor(H/ratio))` computed exactly |
| Thumbnail.ResizeTargetCovers | canvas.go:285-290 | the resize target matches the thumbnail in one dimension, covers it in the other, and never exceeds the source |
| Thumbnail.CropFits | canvas.go:293-294 | in both branches the raster before the crop is at least `w x h`, so the centred crop has non-negative offsets and lies in bounds |
| Thumbnail.BackdropAtSize | canvas.go:271-278 | a backdrop is an `m x m` square whatever happens to the composite |
| Thumbnail.BackdropSize | canvas.go:271-275 | the pad branch's backdrop is a `max(w,h)` square unless blanks are refused |
| Thumbnail.CropCentreExact | canvas.go:294-298 | a centred crop of a large enough raster gives exactly `w x h`, unless the engine refuses crops |
| Thumbnail.ThumbnailExactSize | canvas.go:258-301 | without resize, blank or crop faults the thumbnail returns no error and is exactly `w x h` |
| Thumbnail.ThumbnailResizeFailure | canvas.go:285-290 | a refused resize returns "Could not resize: " and the diagnostic before any crop, with the image untouched |
| Thumbnail.PaddedLog | canvas.go:271-298 | with blanks, composites and crops accepted, the pad branch ends at the target size with the log "composite at (x, y), centred crop", so the source lies at (x, y) less the crop offset |
| Thumbnail.PaddedThumbnailPlacement | canvas.go:258-298 | as written, the thumbnail's log is the composite at `((w-W)/2, (h-H)/2)` and the crop at `((m-w)/2, (m-h)/2)`, so the source lands at their difference |
| Thumbnail.PadPlacementOffCentre | canvas.go:273-298 | as written, `Thumbnail(4, 2)` of a 2x2 source places it at (1, -1), one row above the top edge, where centring gives (1, 0) |
| Thumbnail.CentredPadPlacement | canvas.go:278 | the corrected thumbnail has the target size, no error, and the source at `((w-W)/2, (h-H)/2)`, so each axis's margins differ by at most one pixel |
| Thumbnail.CentredThumbnailExactSize | canvas.go:258-301 | the corrected thumbnail keeps the exact `w x h` size whenever blanks, resizes and crops are accepted |
| Canvas.ClonedState | canvas.go:245-255 | the clone's raster: a transparent blank of the source's size with the source composited at the origin; stated by `Canvas.CloneSameSize` |
| Canvas.CloneSameSize | canvas.go:245-255 | a clone has the source's size, a transparent background, and exactly the source composited at the origin |
| Canvas.Canvas.Zero | canvas.go:75-89 | the zero-value canvas has every handle nil |
| Canvas.Canvas.constructor | canvas.go:699-726 | New allocates fresh handles: an empty raster, background "none" (read back as "#000000"), a white antialiased stroke of width 1 and opacity 1 with round cap and join, and a "#888888" fill |
| Canvas.Canvas.Check | canvas.go:227-233 | one engine call with the drain, as `Failures.Checked` specifies |
| Canvas.Canvas.Error | canvas.go:210-215 | returns the pending diagnostic and clears it |
| Canvas.Canvas.Open | canvas.go:115-129 | a missing path returns the stat error and a directory returns the "it's a directory!" error, in both cases without reading; otherwise the read and its drained error; the filename is not recorded |
| Canvas.Canvas.AutoOrientate | canvas.go:132-182 | the raster and the error are those of `Orientation.AutoOrientateSpec` |
| Canvas.Canvas.Metadata | canvas.go:185-207 | the loop over property names returns `Metadata.MetadataOf` of the raster |
| Canvas.Canvas.SetMetadata | canvas.go:218-224 | sets one property, with a "Could not set metadata: " error on refusal |
| Canvas.Canvas.Flop | canvas.go:227-233 | flop with a "Could not flop image: " error on refusal |
| Canvas.Canvas.Flip | canvas.go:236-242 | flip, whose refusal message also says "Could not flop image: " |
| Canvas.Canvas.Clone | canvas.go:245-255 | returns a new canvas with fresh handles whose raster is `ClonedState` of this one, with no text record and New's stroke, fill and drawing defaults; this canvas is only read |
| Canvas.Canvas.Thumbnail | canvas.go:258-301 | the wand it finishes on holds `Thumbnail.ThumbnailSpec`; in the pad branch the caller's raster handle is released and the working wand is a fresh clone the caller cannot reach |
| Canvas.Canvas.ThumbnailInPlace | canvas.go:258-301 | the corrected Thumbnail: the caller's canvas stays Ready and its raster holds `Thumbnail.CentredThumbnailSpec`, with every other field kept |
| Canvas.Canvas.ReplaceWithCentredBackdrop | canvas.go:271-283 | the corrected pad branch: the old handle is released and the canvas adopts a fresh handle holding `Thumbnail.CentredBackdrop` |
| Canvas.Canvas.AppendCanvas | canvas.go:304-312 | composites the source's live raster at (x, y), with a "Could not append image: " error on refusal |
| Canvas.Canvas.RotateCanvas | canvas.go:315-323 | a rotation by quarter turns, with a "Could not rotate image: " error on refusal |
| Canvas.Canvas.Width | canvas.go:326-328 | the raster's width, 0 without an image |
| Canvas.Canvas.Height | canvas.go:331-333 | the raster's height, 0 without an image |
| Canvas.Canvas.Write | canvas.go:336-350 | merges the drawing first; an error there returns before writing; otherwise the file holds the image exactly when the write succeeds |
| Canvas.Canvas.Resize | canvas.go:353-361 | resize with a "Could not resize: " error on refusal |
| Canvas.Canvas.AdaptiveResize | canvas.go:364-372 | adaptive resize with a "Could not resize: " error on refusal |
| Canvas.Canvas.SetQuality | canvas.go:375-388 | sets the compression quality, with a "Could not set compression quality: " error on refusal; on success `Quality` reads back the value set, on refusal it is unchanged |
| Canvas.Canvas.Quality | canvas.go:386-388 | the image's compression quality, 0 without an image; its read-back is stated on `Canvas.Canvas.SetQuality` |
| Canvas.Canvas.SetBackgroundColor | canvas.go:402-416 | the background handle takes the colour if it can be read, the image background is set from the handle, with a "Could not set background color: " error on refusal |
| Canvas.Canvas.SetStrokeAntialias | canvas.go:419-430 | stores `magickBoolean(value)`, and `StrokeAntialias` reads back `value` |
| Canvas.Canvas.SetStrokeWidth | canvas.go:433-440 | the width getter reads back the value set, and nothing else changes |
| Canvas.Canvas.SetStrokeOpacity | canvas.go:443-450 | the opacity getter reads back the value set, and nothing else changes |
| Canvas.Canvas.SetStrokeLineCap | canvas.go:453-460 | the cap getter reads back the value set, and nothing else changes |
| Canvas.Canvas.SetStrokeLineJoin | canvas.go:463-470 | the join getter reads back the value set, and nothing else changes |
| Canvas.Canvas.SetFillColor | canvas.go:479-487 | the fill handle takes a readable colour, the drawing fill is taken from the handle, and `FillColor` reads it back as hex |
| Canvas.Canvas.SetStrokeColor | canvas.go:490-498 | the stroke handle takes a readable colour, the drawing stroke is taken from the handle, and `StrokeColor` reads it back as hex |
| Canvas.Canvas.Circle | canvas.go:501-503 | appends a circle at the origin drawn with the current settings |
| Canvas.Canvas.Rectangle | canvas.go:506-508 | appends a rectangle from the origin to (x, y) |
| Canvas.Canvas.Translate | canvas.go:511-513 | appends a translation to the current transform |
| Canvas.Canvas.Scale | canvas.go:516-518 | appends a scaling to the current transform |
| Canvas.Canvas.Line | canvas.go:521-523 | appends a line from the origin to (x, y) |
| Canvas.Canvas.Rotate | canvas.go:533-536 | appends a rotation, in degrees, to the current transform |
| Canvas.Canvas.Ellipse | canvas.go:539-541 | appends a full 0 to 360 ellipse at the origin |
| Canvas.Canvas.PushDrawing | canvas.go:544-552 | saves the current drawing settings and returns no error |
| Canvas.Canvas.PopDrawing | canvas.go:555-563 | restores the last save; with nothing saved it returns an error whose message is drained from the raster handle, not the drawing wand |
| Canvas.Canvas.Update | canvas.go:566-574 | merges every drawing command into the raster, with a "Could not update image: " error on refusal |
| Canvas.Canvas.Destroy | canvas.go:577-585 | "Nothing to destroy" exactly when the raster handle is nil; otherwise only that handle is released and the caller's field still points at it |
| Canvas.Canvas.Release | canvas.go:577-585 | the corrected Destroy: the handle is released and the caller's field becomes nil, so "Nothing to destroy" answers a second call; the other fields are kept |
| Canvas.Canvas.Blank | canvas.go:588-596 | a new image of the given size filled with the background handle's colour |
| Canvas.Canvas.Blur | canvas.go:599-607 | blur with a "Could not blur image: " error on refusal |
| Canvas.Canvas.AdaptiveBlur | canvas.go:610-618 | adaptive blur with a "Could not blur image: " error on refusal |
| Canvas.Canvas.AddNoise | canvas.go:621-629 | noise with a "Could not add noise: " error on refusal |
| Canvas.Canvas.Chop | canvas.go:632-640 | chop with a "Could not chop: " error on refusal |
| Canvas.Canvas.Crop | canvas.go:643-651 | crop with a "Could not crop: " error on refusal |
| Canvas.Canvas.SetBrightness | canvas.go:654-666 | modulation with brightness `ModulationPercent(factor)` and the other two at 100 |
| Canvas.Canvas.SetSaturation | canvas.go:669-681 | modulation with saturation `ModulationPercent(factor)` and the other two at 100 |
| Canvas.Canvas.SetHue | canvas.go:684-696 | modulation with hue `ModulationPercent(factor)` and the other two at 100 |
| Canvas.ThumbnailAsWrittenLosesRaster | canvas.go:258-283 | as written, Thumbnail(1, 1) of a new canvas leaves the caller holding a released raster handle |
| Canvas.ThumbnailInPlaceKeepsRaster | canvas.go:258-301 | with the corrected Thumbnail the caller's canvas stays Ready and holds exactly `w x h` when blanks, resizes and crops are accepted |
| Canvas.DestroyTwiceAsWritten | canvas.go:577-585 | as written, after one Destroy the caller's canvas still holds the released handle, which a second Destroy would release again |
| Canvas.ReleaseTwice | canvas.go:577-585 | with the corrected Destroy two calls in a row give no error and then "Nothing to destroy" |
| TextRecord.TextProperties.constructor | text.go:39-55 | a record holding exactly the given fields |
| TextRecord.TextProperties.Copy | text.go:113-114 | `*p` copied into a new record with the same fields |
| Text.InSync | text.go:96-106 | a record and the drawing settings agree on every property the record carries; preserved by every setter |
| Text.Applied | text.go:96-106 | installing a record sets family, weight, alignment, antialias and kerning, sets the font only when its name is non-empty and the size only when it is positive, and leaves stroke, fill and transform alone |
| Text.AppliedIdempotent | text.go:96-106 | installing a record twice is installing it once, and installing a record the settings already match changes nothing |
| Text.ReapplyRestores | text.go:227-236 | reinstalling a full record that the settings matched restores them, whatever was installed in between |
| Text.AnnotateKeepsRecord | text.go:227-236 | with a record in place, the record keeps its fields, the annotation is drawn with `prop` applied, and settings in sync with a full record come back unchanged |
| Text.AnnotateAdoptsProperties | text.go:227-236 | as written, a canvas without a record ends up with `prop` as its record and with `prop`'s settings in the drawing wand |
| Text.RestoreKeepsPropertiesFont | text.go:227-236 | as written, a record with an empty font name does not take back the font `prop` installed |
| Text.AnnotateScopedRestores | text.go:225-236 | annotating between a save and a restore leaves the record, the drawing settings and the stack unchanged and adds exactly one annotation drawn with `prop` |
| Text.NewTextProperties | text.go:61-93 | with `readDefault`, a new record of the drawing wand's current text settings and under-colour, with antialias true iff MagickTrue; otherwise a zero record with a fresh black under-colour |
| Text.SetTextProperties | text.go:96-106 | nil changes nothing; otherwise `def` itself becomes the record, keeps its fields, and the drawing settings become `Applied` of it; the canvas's handles and filename are kept |
| Text.TextProperties | text.go:109-115 | nil without a record; otherwise a new object with the record's fields |
| Text.SetFontName | text.go:118-128 | the record and the drawing wand both take the name, the getter returns it, and agreement between them is preserved |
| Text.SetFontFamily | text.go:131-141 | the record and the drawing wand both take the family, the getter returns it, and agreement is preserved |
| Text.SetFontSize | text.go:144-152 | the record and the drawing wand both take the size, the getter returns it, and agreement is preserved |
| Text.SetFontWeight | text.go:155-163 | the record and the drawing wand both take the weight, the getter returns it, and agreement is preserved |
| Text.SetFont | text.go:169-181 | the name changes only when non-empty and the size only when positive, in the record and the drawing wand alike, and `Font` returns the pair |
| Text.SetTextAlignment | text.go:185-193 | the record and the drawing wand both take the alignment, the getter returns it, and agreement is preserved |
| Text.SetTextAntialias | text.go:196-204 | the record takes the flag, the drawing wand takes `magickBoolean` of it, and both read back the flag |
| Text.SetTextKerning | text.go:207-215 | the record and the drawing wand both take the kerning, the getter returns it, and agreement is preserved |
| Text.Annotate | text.go:219-223 | appends one annotation at (x, y) with the current settings and changes no setting |
| Text.AnnotateWithProperties | text.go:227-236 | the record's fields and the drawing context afterwards are `AnnotateAsWritten`: the old record comes back as a fresh copy, or `prop` stays when there was none, and `prop` keeps its fields, the record that was on the canvas is never written, and the canvas's handles and filename are kept |
| Text.AnnotateWithScopedProperties | text.go:227-236 | the corrected version matches `AnnotateScoped`: the record is untouched and the drawing settings are saved and restored around the annotation |
| Legacy.SizeT | canvas/canvas.go:124-130 | a Go `int` passed as `size_t` is unchanged when non-negative and wraps to at least 2^63 when negative |
| Legacy.Environment.Genesis | canvas/canvas.go:90-92 | the environment is started |
| Legacy.Canvas.constructor | canvas/canvas.go:437-466 | New starts the environment and sets the defaults: background "#000000", whose refusal on the empty raster stays pending, a white antialiased stroke of width 1 and opacity 1 with round cap and join, and a "#888888" fill |
| Legacy.Canvas.Init | canvas/canvas.go:90-92 | the environment is started |
| Legacy.Canvas.Call | canvas/canvas.go:95-101 | a bool wrapper answers false exactly when the engine answers MagickFalse, and leaves the diagnostic pending |
| Legacy.Canvas.Open | canvas/canvas.go:95-101 | the engine reads the path without a prior check, and a missing path or a directory answers false |
| Legacy.Canvas.Width | canvas/canvas.go:104-106 | the engine's width read as a Go `int`: unchanged up to 2^63-1, negative above |
| Legacy.Canvas.Height | canvas/canvas.go:109-111 | the engine's height read as a Go `int`: unchanged up to 2^63-1, negative above |
| Legacy.Canvas.Write | canvas/canvas.go:114-121 | the drawing is merged and its outcome ignored; the answer is false exactly when the write fails, and the file holds the image otherwise |
| Legacy.Canvas.Resize | canvas/canvas.go:124-130 | resize to the `size_t` conversions of the arguments |
| Legacy.Canvas.AdaptiveResize | canvas/canvas.go:133-139 | adaptive resize to the `size_t` conversions of the arguments |
| Legacy.Canvas.SetQuality | canvas/canvas.go:142-153 | sets the compression quality to the `size_t` conversion of the argument; false exactly on refusal |
| Legacy.Canvas.Quality | canvas/canvas.go:151-153 | the compression quality read as a Go `int`, 0 without an image |
| Legacy.Canvas.SetBackgroundColor | canvas/canvas.go:167-179 | the handle takes a readable colour and the image background is set from it |
| Legacy.Canvas.SetStrokeAntialias | canvas/canvas.go:182-193 | stores `magickBoolean(value)`, and the getter reads `value` back |
| Legacy.Canvas.SetStrokeWidth | canvas/canvas.go:196-203 | the width getter reads back the value set |
| Legacy.Canvas.SetStrokeOpacity | canvas/canvas.go:206-213 | the opacity getter reads back the value set |
| Legacy.Canvas.SetStrokeLineCap | canvas/canvas.go:216-223 | the cap getter reads back the value set |
| Legacy.Canvas.SetStrokeLineJoin | canvas/canvas.go:226-233 | the join getter reads back the value set |
| Legacy.Canvas.SetFillColor | canvas/canvas.go:242-250 | the fill handle and the drawing fill take a readable colour, which the getter reads back as hex |
| Legacy.Canvas.SetStrokeColor | canvas/canvas.go:253-261 | the stroke handle and the drawing stroke take a readable colour, which the getter reads back as hex |
| Legacy.Canvas.Circle | canvas/canvas.go:264-266 | appends a circle at the origin |
| Legacy.Canvas.Rectangle | canvas/canvas.go:269-271 | appends a rectangle from the origin |
| Legacy.Canvas.Translate | canvas/canvas.go:274-276 | appends a translation to the transform |
| Legacy.Canvas.Scale | canvas/canvas.go:279-281 | appends a scaling to the transform |
| Legacy.Canvas.Line | canvas/canvas.go:284-286 | appends a line from the origin |
| Legacy.Canvas.Rotate | canvas/canvas.go:296-299 | appends a rotation in degrees to the transform |
| Legacy.Canvas.Ellipse | canvas/canvas.go:302-304 | appends a full ellipse at the origin |
| Legacy.Canvas.PushDrawing | canvas/canvas.go:307-313 | saves the drawing settings and answers true |
| Legacy.Canvas.PopDrawing | canvas/canvas.go:316-322 | false exactly when nothing was saved; otherwise restores the last save; the raster is not touched |
| Legacy.Canvas.Update | canvas/canvas.go:325-327 | merges the drawing and drops the engine's answer |
| Legacy.Canvas.Destroy | canvas/canvas.go:330-335 | releases the raster handle when there is one, and always shuts the environment down |
| Legacy.Canvas.Blank | canvas/canvas.go:338-344 | a new image of the converted size in the background colour |
| Legacy.Canvas.Blur | canvas/canvas.go:347-353 | blur; false exactly on refusal |
| Legacy.Canvas.AdaptiveBlur | canvas/canvas.go:356-362 | adaptive blur; false exactly on refusal |
| Legacy.Canvas.AddNoise | canvas/canvas.go:365-371 | noise; false exactly on refusal |
| Legacy.Canvas.Chop | canvas/canvas.go:374-380 | chop with the converted size; false exactly on refusal |
| Legacy.Canvas.Crop | canvas/canvas.go:383-389 | crop with the converted size; false exactly on refusal |
| Legacy.Canvas.SetBrightness | canvas/canvas.go:392-404 | brightness `ModulationPercent(factor)`, others 100 |
| Legacy.Canvas.SetSaturation | canvas/canvas.go:407-419 | saturation `ModulationPercent(factor)`, others 100 |
| Legacy.Canvas.SetHue | canvas/canvas.go:422-434 | hue `ModulationPercent(factor)`, others 100 |

## Left out

- Pixel work. Decoding, encoding, resampling, blurring, noise, modulation, compositing and rasterising happen inside the C library. An image is its size, properties, orientation, quality, background and a log of the operations applied, and the engine's refusals are a fault table keyed by C function name.
- Floating point. Real numbers stand in for float64:
  - the thumbnail ratio is exact, so the float rounding that can land `uint(W/ratio)` one pixel short is not modelled;
  - colour channels are integers 0..255, so the `*255` truncation of `getPixelHexColor` is not modelled.
- Canvas.Canvas.RotateCanvas: takes the angle in quarter turns. Other radian angles, and the radian-to-degree constants, are not modelled.
- Canvas.Canvas.Rotate and Legacy.Canvas.Rotate: take the angle already in degrees.
- Memory handling is not modelled:
  - `C.CString` allocations that are never freed;
  - `MagickRelinquishMemory` and `C.free`;
  - the handles of the replacement canvas that Thumbnail and Clone leave allocated.
- The package-level `MagickWandGenesis` at canvas.go:91-93 is not modelled. The legacy package's Genesis and Terminus are modelled by `Legacy.Environment`, without checking that no canvas outlives Terminus.
- Magick.Step: reading an image replaces the wand's image. The engine appends the file's images to its image list, and the façade only ever uses the current one.
- Colors.ParseColor: reads only "none" and "#rrggbb". The engine's `PixelSetColor` also reads colour names, "#rgb", "#rrggbbaa", "rgb(...)" and other forms, which the model refuses; Magick.PixelWand.SetColor and every colour setter inherit this.
- Magick.PixelWand.SetColor: answers false for any specification outside that grammar, where the engine would accept many of them.
- Magick.Names: lists properties in the order of the list. The engine keeps them in a tree ordered by case-insensitive key, lists them in that order, skips names starting with '[', and Magick.SetProp and Magick.GetProp compare keys exactly. Which spelling wins a trim collision follows the engine's order, which the model reproduces only when the list is already in that order.
- Magick.Step: a crop outside the image succeeds without leaving the engine's GeometryDoesNotContainImage warning on the wand, and the image's page offset is taken to be 0.
- Magick.Apply: a chop that removes a whole side leaves an image with that side 0; what the engine does with such a chop is not modelled.
- Canvas.Canvas.Error: uses the diagnostic verbatim. The source passes it to `fmt.Errorf` as a format string, so a `%` in a diagnostic would be rewritten.
- Canvas.Canvas.PushDrawing: the engine's push is modelled as never failing, so the "Could not push surface" error path is not modelled.
- Canvas.Canvas.Thumbnail: requires a positive target width and height. With a zero target the source divides by zero in float64, and that case is not modelled.
- Canvas.Canvas.Width, Canvas.Canvas.Height and Canvas.Canvas.Quality: read 0 for a wand without an image and record no diagnostic, whereas the engine records "no images" there.
- Text setters and getters require an existing record, because the source dereferences `self.text` and panics when it is nil.
- Legacy.Canvas.SetStrokeLineCap and Legacy.Canvas.SetStrokeLineJoin: take a non-negative value. A negative Go `int` converted to the C enum is not modelled.
- Legacy.Canvas.Width, Legacy.Canvas.Height and Legacy.Canvas.Quality: require sizes below 2^64, which a real engine never exceeds.
- Legacy.Canvas.Resize, Legacy.Canvas.AdaptiveResize, Legacy.Canvas.SetQuality, Legacy.Canvas.Blank, Legacy.Canvas.Chop and Legacy.Canvas.Crop: require their `int` arguments in the 64-bit range that every Go `int` has.
- The `width` and `height` string fields of both structs are never read or written by the code, and are omitted.
- The constants in canvas.go:48-72 and constants.go are not modelled, apart from the orientation codes, line caps, line joins and alignments the modelled code uses.
- pixel.go, pixel_iterator.go, wand.go, wand.c and the example programs are not part of this model.
- `OpenBlob`, `Fit`, `ResizeWithFilter` and `GetImageBlob` are called by the tests but are not defined in the source, so they are not part of this model.
- The foreground handle is allocated and never used by the code, so it only appears in `Ready`.
- Writing chooses the file format from the file name's extension. The model stores the image as it is.

## Findings

| source | as written | input that shows it | evidently intended | confidence | as-written member | corrected member |
|---|---|---|---|---|---|---|
| canvas.go:278 | the pad branch composites the source at `(w-W)/2` into the `m x m` backdrop, but then crops at `(m-w)/2`, so the source moves by the crop offset | a 2x2 source and `Thumbnail(4, 2)`: backdrop side 4, source at row 0, crop from row 1, so the source starts at row -1 and half of it is cut away | the source centred in the thumbnail at `(w-W)/2` | medium, not executed | Thumbnail.PadPlacementOffCentre | Thumbnail.CentredPadPlacement |
| canvas.go:258-283 | `Thumbnail` has a value receiver: the pad branch releases the caller's raster handle and stores the replacement in the receiver's copy only | `canvas.Thumbnail(2000, 2000)` on a smaller image, then `canvas.Write(...)` and `canvas.Destroy()` as in canvas_test.go:124-139: both use the released handle | the caller's canvas holding the thumbnail | high, not executed | Canvas.ThumbnailAsWrittenLosesRaster | Canvas.Canvas.ThumbnailInPlace |
| canvas.go:577-585 | `Destroy` has a value receiver, so `self.wand = nil` is lost | `c.Destroy(); c.Destroy()`: the second call releases the same handle again | a second call answering "Nothing to destroy" | high, not executed | Canvas.DestroyTwiceAsWritten | Canvas.Canvas.Release |
| text.go:227-236 | with no record on the canvas, the saved copy is nil and the restoring `SetTextProperties(nil)` does nothing | a canvas whose record is nil and `AnnotateWithProperties("x", 0, 0, prop)`: afterwards the record is `prop` and the drawing wand keeps `prop`'s settings | the canvas's text properties unchanged by the call, as its comment says | medium, not executed | Text.AnnotateAdoptsProperties | Text.AnnotateScopedRestores |
| text.go:227-236 | restoring goes through `SetFont`, which skips an empty font name, so a record with no font name does not take back the font `prop` installed | a record with font "" in sync with the drawing wand and `prop` with font "Arial": afterwards the drawing font is "Arial" | the drawing settings from before the call | medium, not executed | Text.RestoreKeepsPropertiesFont | Text.AnnotateScopedRestores |
