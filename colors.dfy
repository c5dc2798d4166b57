/** Colour normalisation: convert_color turns whatever colour name Graphviz
    accepts into the "#RRGGBB" form Ubigraph expects. The colour library
    itself (colorxlate and its colour schemes) is not part of this model; it
    is an abstract function of the active scheme and the colour name. */
module Colors {
  import opened Wrappers

  /** One unsigned char channel of a gvcolor_t in RGBA_BYTE form. */
  type byte = x: int | 0 <= x < 256

  /** colorxlate's answer in RGBA_BYTE form: color.u.rgba[0], [1], [2], [3]. */
  datatype Rgba = Rgba(r: byte, g: byte, b: byte, alpha: byte)

  /** colorxlate(name, &color, RGBA_BYTE) under the colour scheme that
      setColorScheme installed last (None: none installed yet). None stands
      for every return code other than COLOR_OK. */
  type ColorXlate = (Option<string>, string) -> Option<Rgba>

  predicate IsUpperHexDigit(c: char)
  {
    '0' <= c <= '9' || 'A' <= c <= 'F'
  }

  /** '#' followed by six upper-case hexadecimal digits. */
  predicate IsHexColor(s: string)
  {
    |s| == 7 && s[0] == '#' && forall i :: 1 <= i < 7 ==> IsUpperHexDigit(s[i])
  }

  /** The value of one upper-case hexadecimal digit. */
  function DigitValue(c: char): (d: int)
    requires IsUpperHexDigit(c)
    ensures 0 <= d < 16
  {
    if c <= '9' then c as int - '0' as int else c as int - 'A' as int + 10
  }

  /** One digit as printf's %X writes it. */
  function HexDigit(d: int): (c: char)
    requires 0 <= d < 16
    ensures IsUpperHexDigit(c) && DigitValue(c) == d
  {
    if d < 10 then ('0' as int + d) as char else ('A' as int + d - 10) as char
  }

  /** A digit is the one HexDigit prints for its value. */
  lemma HexDigitOfValue(c: char)
    requires IsUpperHexDigit(c)
    ensures HexDigit(DigitValue(c)) == c
  {
  }

  /** The two digits of Hex2 spell the byte, and every pair of digits is
      what Hex2 prints for the byte it spells. */
  lemma Hex2RoundTrip(x: byte, hi: char, lo: char)
    requires IsUpperHexDigit(hi) && IsUpperHexDigit(lo)
    ensures ByteOf(Hex2(x)[0], Hex2(x)[1]) == x
    ensures Hex2(ByteOf(hi, lo)) == [hi, lo]
  {
    HexDigitOfValue(hi);
    HexDigitOfValue(lo);
    assert x == 16 * (x / 16) + x % 16;
    var v := 16 * DigitValue(hi) + DigitValue(lo);
    assert v / 16 == DigitValue(hi) && v % 16 == DigitValue(lo);
  }

  /** printf's "%02X" applied to an unsigned char. */
  function Hex2(x: byte): string
  {
    [HexDigit(x / 16), HexDigit(x % 16)]
  }

  /** sprintf(rgb, "#%02X%02X%02X", rgba[0], rgba[1], rgba[2]): the alpha
      channel is not printed. */
  function FormatRgb(c: Rgba): (s: string)
    ensures IsHexColor(s)
  {
    "#" + Hex2(c.r) + Hex2(c.g) + Hex2(c.b)
  }

  /** The byte that two hexadecimal digits spell, high digit first. */
  function ByteOf(hi: char, lo: char): byte
    requires IsUpperHexDigit(hi) && IsUpperHexDigit(lo)
  {
    16 * DigitValue(hi) + DigitValue(lo)
  }

  /** Reads a "#RRGGBB" string back into its three channels; None for
      anything that is not of that form. */
  function ParseRgb(s: string): Option<(byte, byte, byte)>
  {
    if IsHexColor(s) then
      assert IsUpperHexDigit(s[1]) && IsUpperHexDigit(s[2]) && IsUpperHexDigit(s[3]);
      assert IsUpperHexDigit(s[4]) && IsUpperHexDigit(s[5]) && IsUpperHexDigit(s[6]);
      Some((ByteOf(s[1], s[2]), ByteOf(s[3], s[4]), ByteOf(s[5], s[6])))
    else None
  }

  /** The printed string holds exactly R, G and B, in that order. */
  lemma FormatRgbRoundTrip(c: Rgba)
    ensures ParseRgb(FormatRgb(c)) == Some((c.r, c.g, c.b))
  {
    var s := FormatRgb(c);
    assert s[1..3] == Hex2(c.r) && s[3..5] == Hex2(c.g) && s[5..7] == Hex2(c.b);
    Hex2RoundTrip(c.r, '0', '0');
    Hex2RoundTrip(c.g, '0', '0');
    Hex2RoundTrip(c.b, '0', '0');
  }

  /** Every "#RRGGBB" string is what FormatRgb prints for the channels it
      spells, whatever the alpha channel. */
  lemma ParseRgbRoundTrip(s: string, alpha: byte)
    requires ParseRgb(s).Some?
    ensures var (r, g, b) := ParseRgb(s).value; FormatRgb(Rgba(r, g, b, alpha)) == s
  {
    var (r, g, b) := ParseRgb(s).value;
    assert IsUpperHexDigit(s[1]) && IsUpperHexDigit(s[2]) && IsUpperHexDigit(s[3]);
    assert IsUpperHexDigit(s[4]) && IsUpperHexDigit(s[5]) && IsUpperHexDigit(s[6]);
    Hex2RoundTrip(r, s[1], s[2]);
    Hex2RoundTrip(g, s[3], s[4]);
    Hex2RoundTrip(b, s[5], s[6]);
    assert s == "#" + [s[1], s[2]] + [s[3], s[4]] + [s[5], s[6]];
  }

  /** convert_color: resolve the name under the active scheme and print the
      result as "#RRGGBB". None is the failure after which the run exits. */
  function ConvertColor(name: string, scheme: Option<string>, xlate: ColorXlate): (r: Option<string>)
    ensures r.None? <==> xlate(scheme, name).None?
    ensures r.Some? ==> IsHexColor(r.value)
    ensures r.Some? ==>
      var c := xlate(scheme, name).value;
      ParseRgb(r.value) == Some((c.r, c.g, c.b))
  {
    match xlate(scheme, name)
    case None => None
    case Some(c) =>
      FormatRgbRoundTrip(c);
      Some(FormatRgb(c))
  }
}
