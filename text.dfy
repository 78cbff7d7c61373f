/** The TextProperties record of text.go (text.go:39-55): annotation defaults that the
    canvas caches beside the drawing wand's own text settings. It is a pointer-shared
    record in Go, so it is a class here. */
module TextRecord {
  import opened Magick

  /** The record's fields as one value. */
  datatype TextValues = TextValues(
    font: string, family: string, size: real, weight: nat, alignment: nat,
    antialias: bool, kerning: real, underColor: PixelWand)

  class TextProperties {
    var font: string
    var family: string
    var size: real
    var weight: nat
    var alignment: nat
    var antialias: bool
    var kerning: real
    var underColor: PixelWand

    constructor (font: string, family: string, size: real, weight: nat, alignment: nat,
                 antialias: bool, kerning: real, underColor: PixelWand)
      ensures this.font == font && this.family == family && this.size == size
      ensures this.weight == weight && this.alignment == alignment && this.antialias == antialias
      ensures this.kerning == kerning && this.underColor == underColor
    {
      this.font := font;
      this.family := family;
      this.size := size;
      this.weight := weight;
      this.alignment := alignment;
      this.antialias := antialias;
      this.kerning := kerning;
      this.underColor := underColor;
    }

    /** `cpy := *p`: a new record with the same fields (sharing the under-colour handle). */
    constructor Copy(from: TextProperties)
      ensures SameFields(from)
    {
      font := from.font;
      family := from.family;
      size := from.size;
      weight := from.weight;
      alignment := from.alignment;
      antialias := from.antialias;
      kerning := from.kerning;
      underColor := from.underColor;
    }

    function Values(): TextValues
      reads this
    {
      TextValues(font, family, size, weight, alignment, antialias, kerning, underColor)
    }

    /** Field-wise equality. */
    predicate SameFields(other: TextProperties)
      reads this, other
    {
      Values() == other.Values()
    }
  }
}

/** The text operations of text.go (text.go:57-236). They have pointer receivers, so the
    record they install in `text` is the caller's. The setters write one field of the
    record and the same value into the drawing wand; they dereference the record, which
    must therefore exist. */
module Text {
  import opened Wrappers
  import opened Colors
  import opened Drawing
  import opened Magick
  import opened TextRecord
  import C = Canvas

  /** A record and the drawing settings agree on every text property the record carries
      to the drawing wand (the under-colour is never carried). */
  predicate InSync(t: TextValues, d: DrawState)
  {
    d.font == t.font && d.family == t.family && d.fontSize == t.size && d.fontWeight == t.weight
    && d.alignment == t.alignment && d.textAntialias == MagickBoolean(t.antialias) && d.kerning == t.kerning
  }

  /** The drawing settings after SetTextProperties(t) (text.go:96-106): family, weight,
      alignment, antialias and kerning always, the font only when its name is not empty and
      the size only when it is positive (SetFont, text.go:169-176). */
  function Applied(d: DrawState, t: TextValues): (r: DrawState)
    ensures r.family == t.family && r.fontWeight == t.weight && r.alignment == t.alignment
            && r.textAntialias == MagickBoolean(t.antialias) && r.kerning == t.kerning
    ensures r.font == (if |t.font| > 0 then t.font else d.font)
    ensures r.fontSize == (if t.size > 0.0 then t.size else d.fontSize)
    ensures |t.font| > 0 && t.size > 0.0 ==> InSync(t, r)
    ensures r.strokeColor == d.strokeColor && r.strokeWidth == d.strokeWidth && r.strokeOpacity == d.strokeOpacity
            && r.lineCap == d.lineCap && r.lineJoin == d.lineJoin && r.strokeAntialias == d.strokeAntialias
            && r.fillColor == d.fillColor && r.underColor == d.underColor && r.transform == d.transform
  {
    d.(family := t.family,
       font := if |t.font| > 0 then t.font else d.font,
       fontSize := if t.size > 0.0 then t.size else d.fontSize,
       fontWeight := t.weight,
       alignment := t.alignment,
       textAntialias := MagickBoolean(t.antialias),
       kerning := t.kerning)
  }

  /** Applying a record twice is applying it once, and applying a record the settings are
      already in sync with changes nothing. */
  lemma AppliedIdempotent(d: DrawState, t: TextValues)
    ensures Applied(Applied(d, t), t) == Applied(d, t)
    ensures InSync(t, d) ==> Applied(d, t) == d
  {
  }

  /** Re-applying a full record restores settings that were in sync with it, whatever was
      applied in between. */
  lemma ReapplyRestores(d: DrawState, p: TextValues, t: TextValues)
    requires InSync(t, d) && |t.font| > 0 && t.size > 0.0
    ensures Applied(Applied(d, p), t) == d
  {
  }

  /** AnnotateWithProperties (text.go:227-236) on values: the record afterwards (as its
      fields) and the drawing context afterwards. */
  function AnnotateAsWritten(rec: Option<TextValues>, d: DrawContext, text: string, x: real, y: real,
                             prop: Option<TextValues>): (Option<TextValues>, DrawContext)
  {
    if prop.None? then (rec, Emit(d, Annotation(x, y, text)))
    else
      var drawn := Emit(d.(current := Applied(d.current, prop.value)), Annotation(x, y, text));
      match rec
      case None => (prop, drawn)
      case Some(t) => (rec, drawn.(current := Applied(drawn.current, t)))
  }

  /** With a record in place, the record keeps its fields, the annotation is drawn with
      `prop` applied, and settings in sync with a full record come back unchanged. */
  lemma AnnotateKeepsRecord(rec: Option<TextValues>, d: DrawContext, text: string, x: real, y: real,
                            prop: Option<TextValues>)
    requires rec.Some?
    ensures var (r, d2) := AnnotateAsWritten(rec, d, text, x, y, prop);
            r == rec && d2.saved == d.saved
            && d2.commands == d.commands + [Draw(Annotation(x, y, text),
                                                 if prop.Some? then Applied(d.current, prop.value) else d.current)]
            && (InSync(rec.value, d.current) && |rec.value.font| > 0 && rec.value.size > 0.0 ==> d2.current == d.current)
  {
    if prop.Some? && InSync(rec.value, d.current) && |rec.value.font| > 0 && rec.value.size > 0.0 {
      ReapplyRestores(d.current, prop.value, rec.value);
    }
  }

  /** As written, a canvas without a record adopts `prop` as its record and keeps its
      settings in the drawing wand, contrary to "does not modify the canvas' default
      TextProperties" (text.go:226). */
  lemma AnnotateAdoptsProperties(d: DrawContext, text: string, x: real, y: real, prop: TextValues)
    ensures AnnotateAsWritten(None, d, text, x, y, Some(prop)).0 == Some(prop)
    ensures AnnotateAsWritten(None, d, text, x, y, Some(prop)).1.current == Applied(d.current, prop)
  {
  }

  /** As written, a record with an empty font name does not take back the font `prop`
      installed: the drawing wand keeps `prop`'s font after the call. */
  lemma RestoreKeepsPropertiesFont(d: DrawContext, t: TextValues, prop: TextValues)
    requires t.font == "" && InSync(t, d.current) && prop.font == "Arial"
    ensures AnnotateAsWritten(Some(t), d, "", 0.0, 0.0, Some(prop)).1.current.font == "Arial"
  {
  }

  /** The intended behaviour: the annotation is drawn with `prop` applied between a save
      and a restore of the drawing settings, and the record is not touched. */
  function AnnotateScoped(rec: Option<TextValues>, d: DrawContext, text: string, x: real, y: real,
                          prop: Option<TextValues>): (Option<TextValues>, DrawContext)
  {
    if prop.None? then (rec, Emit(d, Annotation(x, y, text)))
    else
      var inner := Push(d).(current := Applied(d.current, prop.value));
      (rec, Pop(Emit(inner, Annotation(x, y, text))).value)
  }

  /** The scoped version changes neither the record nor the drawing settings nor the save
      stack, and adds exactly one annotation drawn with `prop` applied. */
  lemma AnnotateScopedRestores(rec: Option<TextValues>, d: DrawContext, text: string, x: real, y: real,
                               prop: Option<TextValues>)
    ensures var (r, d2) := AnnotateScoped(rec, d, text, x, y, prop);
            r == rec && d2.current == d.current && d2.saved == d.saved
            && d2.commands == d.commands + [Draw(Annotation(x, y, text),
                                                 if prop.Some? then Applied(d.current, prop.value) else d.current)]
  {
    if prop.Some? {
      var inner := Push(d).(current := Applied(d.current, prop.value));
      PushPopRestores(d, Emit(inner, Annotation(x, y, text)));
    }
  }

  function RecordOf(t: TextProperties?): Option<TextValues>
    reads t
  {
    if t == null then None else Some(t.Values())
  }

  /** NewTextProperties (text.go:61-93): with `readDefault`, the drawing wand's current text
      settings and under-colour in a new record; otherwise a zero record with a new
      under-colour handle. */
  method NewTextProperties(c: C.Canvas, readDefault: bool) returns (p: TextProperties)
    requires c.drawing != null
    ensures fresh(p) && fresh(p.underColor)
    ensures readDefault ==>
              var d := c.drawing.ctx.current;
              p.font == d.font && p.family == d.family && p.size == d.fontSize && p.weight == d.fontWeight
              && p.alignment == d.alignment && p.kerning == d.kerning
              && (p.antialias <==> IsMagickTrue(d.textAntialias))
              && p.underColor.color == d.underColor
    ensures !readDefault ==>
              p.font == "" && p.family == "" && p.size == 0.0 && p.weight == 0 && p.alignment == UndefinedAlign
              && !p.antialias && p.kerning == 0.0 && p.underColor.color == Black
  {
    var underColor := new PixelWand();
    if readDefault {
      var d := c.drawing.ctx.current;
      underColor.color := d.underColor;
      p := new TextProperties(d.font, d.family, d.fontSize, d.fontWeight, d.alignment,
                              IsMagickTrue(d.textAntialias), d.kerning, underColor);
    } else {
      p := new TextProperties("", "", 0.0, 0, UndefinedAlign, false, 0.0, underColor);
    }
  }

  /** SetTextProperties (text.go:96-106): nil changes nothing; otherwise `def` becomes the
      canvas's record (shared, not copied) and its settings are pushed to the drawing wand.
      Because the setters then write `def`'s own values back into `def`, it keeps its
      fields. */
  method SetTextProperties(c: C.Canvas, def: TextProperties?)
    requires c.drawing != null
    modifies c, c.drawing, def
    ensures c.drawing == old(c.drawing) && c.wand == old(c.wand)
    ensures c.fg == old(c.fg) && c.bg == old(c.bg) && c.fill == old(c.fill) && c.stroke == old(c.stroke)
            && c.filename == old(c.filename)
    ensures def == null ==> c.text == old(c.text) && c.drawing.ctx == old(c.drawing.ctx)
    ensures def != null ==>
              c.text == def && def.Values() == old(def.Values())
              && c.drawing.ctx == old(c.drawing.ctx).(current := Applied(old(c.drawing.ctx.current), def.Values()))
    ensures c.drawing.exception == old(c.drawing.exception)
  {
    if def != null {
      c.text := def;
      SetFontFamily(c, def.family);
      SetFont(c, def.font, def.size);
      SetFontWeight(c, def.weight);
      SetTextAlignment(c, def.alignment);
      SetTextAntialias(c, def.antialias);
      SetTextKerning(c, def.kerning);
    }
  }

  /** TextProperties (text.go:109-115): nil without a record, otherwise a new record with
      the same fields, so that writing to it leaves the canvas's record alone. */
  method TextProperties(c: C.Canvas) returns (cpy: TextProperties?)
    ensures RecordOf(cpy) == RecordOf(c.text)
    ensures cpy != null ==> fresh(cpy)
  {
    if c.text == null {
      return null;
    }
    cpy := new TextProperties.Copy(c.text);
  }

  /** SetFontName and FontName (text.go:118-128). */
  method SetFontName(c: C.Canvas, font: string)
    requires c.drawing != null && c.text != null
    modifies c.text, c.drawing
    ensures c.text.Values() == old(c.text.Values()).(font := font)
    ensures c.drawing.ctx == old(c.drawing.ctx).(current := old(c.drawing.ctx.current).(font := font))
    ensures c.drawing.exception == old(c.drawing.exception)
    ensures FontName(c) == font && c.drawing.ctx.current.font == font
    ensures InSync(old(c.text.Values()), old(c.drawing.ctx.current)) ==> InSync(c.text.Values(), c.drawing.ctx.current)
  {
    c.text.font := font;
    c.drawing.SetCurrent(c.drawing.ctx.current.(font := font));
  }

  function FontName(c: C.Canvas): string
    reads c, c.text
    requires c.text != null
  {
    c.text.font
  }

  /** SetFontFamily and FontFamily (text.go:131-141). */
  method SetFontFamily(c: C.Canvas, family: string)
    requires c.drawing != null && c.text != null
    modifies c.text, c.drawing
    ensures c.text.Values() == old(c.text.Values()).(family := family)
    ensures c.drawing.ctx == old(c.drawing.ctx).(current := old(c.drawing.ctx.current).(family := family))
    ensures c.drawing.exception == old(c.drawing.exception)
    ensures FontFamily(c) == family && c.drawing.ctx.current.family == family
    ensures InSync(old(c.text.Values()), old(c.drawing.ctx.current)) ==> InSync(c.text.Values(), c.drawing.ctx.current)
  {
    c.text.family := family;
    c.drawing.SetCurrent(c.drawing.ctx.current.(family := family));
  }

  function FontFamily(c: C.Canvas): string
    reads c, c.text
    requires c.text != null
  {
    c.text.family
  }

  /** SetFontSize and FontSize (text.go:144-152). */
  method SetFontSize(c: C.Canvas, size: real)
    requires c.drawing != null && c.text != null
    modifies c.text, c.drawing
    ensures c.text.Values() == old(c.text.Values()).(size := size)
    ensures c.drawing.ctx == old(c.drawing.ctx).(current := old(c.drawing.ctx.current).(fontSize := size))
    ensures c.drawing.exception == old(c.drawing.exception)
    ensures FontSize(c) == size && c.drawing.ctx.current.fontSize == size
    ensures InSync(old(c.text.Values()), old(c.drawing.ctx.current)) ==> InSync(c.text.Values(), c.drawing.ctx.current)
  {
    c.text.size := size;
    c.drawing.SetCurrent(c.drawing.ctx.current.(fontSize := size));
  }

  function FontSize(c: C.Canvas): real
    reads c, c.text
    requires c.text != null
  {
    c.text.size
  }

  /** SetFontWeight and FontWeight (text.go:155-163). */
  method SetFontWeight(c: C.Canvas, weight: nat)
    requires c.drawing != null && c.text != null
    modifies c.text, c.drawing
    ensures c.text.Values() == old(c.text.Values()).(weight := weight)
    ensures c.drawing.ctx == old(c.drawing.ctx).(current := old(c.drawing.ctx.current).(fontWeight := weight))
    ensures c.drawing.exception == old(c.drawing.exception)
    ensures FontWeight(c) == weight && c.drawing.ctx.current.fontWeight == weight
    ensures InSync(old(c.text.Values()), old(c.drawing.ctx.current)) ==> InSync(c.text.Values(), c.drawing.ctx.current)
  {
    c.text.weight := weight;
    c.drawing.SetCurrent(c.drawing.ctx.current.(fontWeight := weight));
  }

  function FontWeight(c: C.Canvas): nat
    reads c, c.text
    requires c.text != null
  {
    c.text.weight
  }

  /** SetFont and Font (text.go:169-181): an empty name leaves the font, and a size that
      is not positive leaves the size, in the record and in the drawing wand alike. */
  method SetFont(c: C.Canvas, font: string, size: real)
    requires c.drawing != null && c.text != null
    modifies c.text, c.drawing
    ensures c.text.Values() == old(c.text.Values()).(font := if |font| > 0 then font else old(c.text.font),
                                                     size := if size > 0.0 then size else old(c.text.size))
    ensures c.drawing.ctx == old(c.drawing.ctx).(current := old(c.drawing.ctx.current).(
                               font := if |font| > 0 then font else old(c.drawing.ctx.current.font),
                               fontSize := if size > 0.0 then size else old(c.drawing.ctx.current.fontSize)))
    ensures c.drawing.exception == old(c.drawing.exception)
    ensures Font(c) == (if |font| > 0 then font else old(c.text.font), if size > 0.0 then size else old(c.text.size))
    ensures InSync(old(c.text.Values()), old(c.drawing.ctx.current)) ==> InSync(c.text.Values(), c.drawing.ctx.current)
  {
    if |font| > 0 {
      SetFontName(c, font);
    }
    if size > 0.0 {
      SetFontSize(c, size);
    }
  }

  function Font(c: C.Canvas): (string, real)
    reads c, c.text
    requires c.text != null
  {
    (c.text.font, c.text.size)
  }

  /** SetTextAlignment and TextAlignment (text.go:185-193). */
  method SetTextAlignment(c: C.Canvas, a: nat)
    requires c.drawing != null && c.text != null
    modifies c.text, c.drawing
    ensures c.text.Values() == old(c.text.Values()).(alignment := a)
    ensures c.drawing.ctx == old(c.drawing.ctx).(current := old(c.drawing.ctx.current).(alignment := a))
    ensures c.drawing.exception == old(c.drawing.exception)
    ensures TextAlignment(c) == a && c.drawing.ctx.current.alignment == a
    ensures InSync(old(c.text.Values()), old(c.drawing.ctx.current)) ==> InSync(c.text.Values(), c.drawing.ctx.current)
  {
    c.text.alignment := a;
    c.drawing.SetCurrent(c.drawing.ctx.current.(alignment := a));
  }

  function TextAlignment(c: C.Canvas): nat
    reads c, c.text
    requires c.text != null
  {
    c.text.alignment
  }

  /** SetTextAntialias and TextAntialias (text.go:196-204). */
  method SetTextAntialias(c: C.Canvas, b: bool)
    requires c.drawing != null && c.text != null
    modifies c.text, c.drawing
    ensures c.text.Values() == old(c.text.Values()).(antialias := b)
    ensures c.drawing.ctx == old(c.drawing.ctx).(current := old(c.drawing.ctx.current).(textAntialias := MagickBoolean(b)))
    ensures c.drawing.exception == old(c.drawing.exception)
    ensures TextAntialias(c) == b && IsMagickTrue(c.drawing.ctx.current.textAntialias) == b
    ensures InSync(old(c.text.Values()), old(c.drawing.ctx.current)) ==> InSync(c.text.Values(), c.drawing.ctx.current)
  {
    c.text.antialias := b;
    c.drawing.SetCurrent(c.drawing.ctx.current.(textAntialias := MagickBoolean(b)));
  }

  function TextAntialias(c: C.Canvas): bool
    reads c, c.text
    requires c.text != null
  {
    c.text.antialias
  }

  /** SetTextKerning and TextKerning (text.go:207-215). */
  method SetTextKerning(c: C.Canvas, k: real)
    requires c.drawing != null && c.text != null
    modifies c.text, c.drawing
    ensures c.text.Values() == old(c.text.Values()).(kerning := k)
    ensures c.drawing.ctx == old(c.drawing.ctx).(current := old(c.drawing.ctx.current).(kerning := k))
    ensures c.drawing.exception == old(c.drawing.exception)
    ensures TextKerning(c) == k && c.drawing.ctx.current.kerning == k
    ensures InSync(old(c.text.Values()), old(c.drawing.ctx.current)) ==> InSync(c.text.Values(), c.drawing.ctx.current)
  {
    c.text.kerning := k;
    c.drawing.SetCurrent(c.drawing.ctx.current.(kerning := k));
  }

  function TextKerning(c: C.Canvas): real
    reads c, c.text
    requires c.text != null
  {
    c.text.kerning
  }

  /** Annotate (text.go:219-223): one annotation command at (x, y) drawn with the current
      settings; no setting changes. */
  method Annotate(c: C.Canvas, text: string, x: real, y: real)
    requires c.drawing != null
    modifies c.drawing
    ensures c.drawing.ctx == Emit(old(c.drawing.ctx), Annotation(x, y, text))
    ensures c.drawing.exception == old(c.drawing.exception)
  {
    c.drawing.EmitShape(Annotation(x, y, text));
  }

  /** AnnotateWithProperties (text.go:227-236): with `prop`, install it, annotate, and
      reinstall a copy of the record that was there, if any. The canvas ends with that
      copy, a new object with the old fields; without a previous record it ends with
      `prop` itself. `prop` keeps its fields. */
  method AnnotateWithProperties(c: C.Canvas, text: string, x: real, y: real, prop: TextProperties?)
    requires c.drawing != null
    modifies c, c.drawing, prop
    ensures c.drawing == old(c.drawing) && c.wand == old(c.wand)
    ensures c.fg == old(c.fg) && c.bg == old(c.bg) && c.fill == old(c.fill) && c.stroke == old(c.stroke)
            && c.filename == old(c.filename)
    ensures (RecordOf(c.text), c.drawing.ctx)
            == AnnotateAsWritten(old(RecordOf(c.text)), old(c.drawing.ctx), text, x, y, old(RecordOf(prop)))
    ensures prop == null ==> c.text == old(c.text)
    ensures prop != null ==> prop.Values() == old(prop.Values())
    ensures prop != null && old(c.text) == null ==> c.text == prop
    ensures prop != null && old(c.text) != null ==> fresh(c.text)
    ensures old(c.text) != null && old(c.text) != prop ==> unchanged(old(c.text))
    ensures c.drawing.exception == old(c.drawing.exception)
  {
    if prop != null {
      var tmp := TextProperties(c);
      SetTextProperties(c, prop);
      Annotate(c, text, x, y);
      SetTextProperties(c, tmp);
    } else {
      Annotate(c, text, x, y);
    }
  }

  /** The corrected AnnotateWithProperties: `prop`'s settings are applied between a save
      and a restore of the drawing wand, and the record is left as it was. */
  method AnnotateWithScopedProperties(c: C.Canvas, text: string, x: real, y: real, prop: TextProperties?)
    requires c.drawing != null
    modifies c.drawing
    ensures (RecordOf(c.text), c.drawing.ctx)
            == AnnotateScoped(RecordOf(c.text), old(c.drawing.ctx), text, x, y, RecordOf(prop))
    ensures c.drawing.exception == old(c.drawing.exception)
  {
    if prop != null {
      var _ := c.drawing.PushDrawingWand();
      c.drawing.SetCurrent(Applied(c.drawing.ctx.current, prop.Values()));
      Annotate(c, text, x, y);
      var _ := c.drawing.PopDrawingWand();
    } else {
      Annotate(c, text, x, y);
    }
  }
}
