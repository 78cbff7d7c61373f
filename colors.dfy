/** Colour values held by the engine's pixel handles, and the façade's
    `getPixelHexColor` formatting (canvas.go:96-104, canvas/canvas.go:71-79). */
module Colors {
  import opened Wrappers

  /** One 8-bit channel. */
  type Channel = x: int | 0 <= x <= 255

  datatype Color = Color(red: Channel, green: Channel, blue: Channel, alpha: Channel)

  const Black: Color := Color(0, 0, 0, 255)
  const White: Color := Color(255, 255, 255, 255)
  /** "#888888", the façade's default fill. */
  const MidGrey: Color := Color(0x88, 0x88, 0x88, 255)
  /** The colour "none" names: transparent black. */
  const Transparent: Color := Color(0, 0, 0, 0)

  predicate IsLowerHex(c: char)
  {
    '0' <= c <= '9' || 'a' <= c <= 'f'
  }

  predicate IsHex(c: char)
  {
    IsLowerHex(c) || 'A' <= c <= 'F'
  }

  function HexValue(c: char): (v: nat)
    requires IsHex(c)
    ensures v < 16
  {
    if '0' <= c <= '9' then c as int - '0' as int
    else if 'a' <= c <= 'f' then c as int - 'a' as int + 10
    else c as int - 'A' as int + 10
  }

  function LowerHex(c: char): (l: char)
    requires IsHex(c)
    ensures IsLowerHex(l) && HexValue(l) == HexValue(c)
  {
    if 'A' <= c <= 'F' then (c as int - 'A' as int + 'a' as int) as char else c
  }

  /** The lowercase hex digit for a nibble. */
  function Digit(k: nat): (c: char)
    requires k < 16
    ensures IsLowerHex(c) && HexValue(c) == k
  {
    if k < 10 then ('0' as int + k) as char else ('a' as int + k - 10) as char
  }

  /** `%02x` of one channel: two lowercase hex digits, high nibble first. */
  function Hex2(v: Channel): (s: string)
    ensures |s| == 2 && IsLowerHex(s[0]) && IsLowerHex(s[1])
    ensures HexValue(s[0]) * 16 + HexValue(s[1]) == v
  {
    [Digit(v / 16), Digit(v % 16)]
  }

  /** `getPixelHexColor`: "#" and two digits per channel, red, green, blue; alpha is not shown. */
  function HexColor(c: Color): (s: string)
    ensures |s| == 7 && s[0] == '#'
    ensures forall i :: 1 <= i < 7 ==> IsLowerHex(s[i])
  {
    "#" + Hex2(c.red) + Hex2(c.green) + Hex2(c.blue)
  }

  function HexPair(hi: char, lo: char): Channel
    requires IsHex(hi) && IsHex(lo)
  {
    HexValue(hi) * 16 + HexValue(lo)
  }

  predicate IsHexSpec(spec: string)
  {
    |spec| == 7 && spec[0] == '#' && forall i :: 1 <= i < 7 ==> IsHex(spec[i])
  }

  /** The colour specifications the model's engine understands in `PixelSetColor`:
      "none" and "#rrggbb" in either letter case. Anything else is refused. */
  function ParseColor(spec: string): (c: Option<Color>)
    ensures c.Some? <==> spec == "none" || IsHexSpec(spec)
    ensures c.Some? && spec != "none" ==> c.value.alpha == 255
  {
    if spec == "none" then Some(Transparent)
    else if IsHexSpec(spec) then
      Some(Color(HexPair(spec[1], spec[2]), HexPair(spec[3], spec[4]), HexPair(spec[5], spec[6]), 255))
    else None
  }

  /** Formatting a colour and reading it back gives the same colour, made opaque. */
  lemma ParseHexColor(c: Color)
    ensures ParseColor(HexColor(c)) == Some(c.(alpha := 255))
  {
    var s := HexColor(c);
    assert s[1..3] == Hex2(c.red) && s[3..5] == Hex2(c.green) && s[5..7] == Hex2(c.blue);
    assert s != "none" by { assert s[0] != "none"[0]; }
    assert IsHexSpec(s);
  }

  /** A "#rrggbb" specification with its letters in lower case. */
  function Lowered(spec: string): string
    requires IsHexSpec(spec)
  {
    "#" + [LowerHex(spec[1]), LowerHex(spec[2])] + [LowerHex(spec[3]), LowerHex(spec[4])]
        + [LowerHex(spec[5]), LowerHex(spec[6])]
  }

  /** Reading "#rrggbb" and formatting it again gives the specification in lower case. */
  lemma HexColorOfParse(spec: string)
    requires IsHexSpec(spec)
    ensures ParseColor(spec).Some? && HexColor(ParseColor(spec).value) == Lowered(spec)
  {
    assert spec != "none" by { assert |spec| != |"none"|; }
    HexPairDigits(spec[1], spec[2]);
    HexPairDigits(spec[3], spec[4]);
    HexPairDigits(spec[5], spec[6]);
  }

  lemma HexPairDigits(hi: char, lo: char)
    requires IsHex(hi) && IsHex(lo)
    ensures Hex2(HexPair(hi, lo)) == [LowerHex(hi), LowerHex(lo)]
  {
    var v := HexPair(hi, lo);
    assert v / 16 == HexValue(hi) && v % 16 == HexValue(lo);
    LowerHexIsDigit(hi);
    LowerHexIsDigit(lo);
  }

  lemma LowerHexIsDigit(c: char)
    requires IsHex(c)
    ensures Digit(HexValue(c)) == LowerHex(c)
  {
  }

  /** The specifications the constructors use. */
  lemma DefaultSpecs()
    ensures ParseColor("#ffffff") == Some(White)
    ensures ParseColor("#888888") == Some(MidGrey)
    ensures ParseColor("#000000") == Some(Black)
    ensures HexColor(White) == "#ffffff" && HexColor(MidGrey) == "#888888"
  {
    assert IsHexSpec("#ffffff") && IsHexSpec("#888888") && IsHexSpec("#000000");
  }

  /** "none" is transparent black, which `getPixelHexColor` reports as "#000000". */
  lemma NoneReadsAsBlack()
    ensures ParseColor("none") == Some(Transparent)
    ensures HexColor(Transparent) == "#000000" && HexColor(Black) == "#000000"
  {
  }
}
