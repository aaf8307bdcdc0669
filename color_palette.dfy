/** The fixed colour sets used for group labels, AWT's `Color.decode`, and the
    `#RRGGBB` text that the group-colours file is written in. */
module ColorPalette {
  import opened Common

  type Channel = x: int | 0 <= x < 256

  /** An opaque AWT colour; only its red, green and blue channels matter here. */
  datatype Color = Color(red: Channel, green: Channel, blue: Channel)

  const SET1: int := 1
  const SET2: int := 2

  const Set1: seq<string> := [
    "#0057E7", "#D62D20", "#FFA700", "#008744", "#5C94EF", "#E47971", "#FFC75C",
    "#5CB288", "#003893", "#891D15", "#A36B00", "#00562C", "#989898", "#A2C1F6",
    "#F0B2AD", "#FFDFA2", "#A2D3BB", "#D8E2DC", "#FFBEA3", "#E8767F", "#E36397",
    "#75DBCD", "#002869", "#62150F", "#744C00", "#003E1F", "#6D6D6D", "#FFDBCC",
    "#F2B4B9", "#EFA9C6", "#B3EBE3", "#A37968", "#944C51", "#914061", "#4B8C83"]

  const Set2: seq<string> := [
    "#3cb44b", "#e6194b", "#ffe119", "#0082c8", "#f58231", "#911eb4", "#46f0f0",
    "#f032e6", "#d2f53c", "#fabebe", "#008080", "#e6beff", "#aa6e28", "#fffac8",
    "#800000", "#aaffc3", "#808000", "#ffd8b1", "#000080", "#808080", "#FFFFFF",
    "#000000"]

  /** Written out in the source as Set2 followed by Set1. */
  const Set3: seq<string> := [
    "#3cb44b", "#e6194b", "#ffe119", "#0082c8", "#f58231", "#911eb4", "#46f0f0",
    "#f032e6", "#d2f53c", "#fabebe", "#008080", "#e6beff", "#aa6e28", "#fffac8",
    "#800000", "#aaffc3", "#808000", "#ffd8b1", "#000080", "#808080", "#FFFFFF",
    "#000000",
    "#0057E7", "#D62D20", "#FFA700", "#008744", "#5C94EF", "#E47971", "#FFC75C",
    "#5CB288", "#003893", "#891D15", "#A36B00", "#00562C", "#989898", "#A2C1F6",
    "#F0B2AD", "#FFDFA2", "#A2D3BB", "#D8E2DC", "#FFBEA3", "#E8767F", "#E36397",
    "#75DBCD", "#002869", "#62150F", "#744C00", "#003E1F", "#6D6D6D", "#FFDBCC",
    "#F2B4B9", "#EFA9C6", "#B3EBE3", "#A37968", "#944C51", "#914061", "#4B8C83"]

  /** `Arrays.copyOfRange(src, 1, n + 1)`: slot k holds src[k + 1], and the
      slots past the end of `src` are padded with null (None). */
  function CopyOfRange(src: seq<string>, n: nat): seq<Option<string>>
  {
    seq(n, k requires 0 <= k < n => if k + 1 < |src| then Some(src[k + 1]) else None)
  }

  /** `getColorPalette(n, set)`: null (None) exactly when more than 56 colours
      are asked for; otherwise n slots taken from index 1 of the chosen set. */
  function GetColorPalette(n: nat, colorSet: int): (r: Option<seq<Option<string>>>)
    ensures r.None? <==> n > 56
    ensures r.Some? ==> |r.value| == n
    ensures r.Some? && colorSet == SET1 && n <= 35 ==> r.value == CopyOfRange(Set1, n)
    ensures r.Some? && colorSet != SET1 && n <= 22 ==> r.value == CopyOfRange(Set2, n)
    ensures r.Some? && ((colorSet == SET1 && n > 35) || (colorSet != SET1 && n > 22)) ==>
              r.value == CopyOfRange(Set3, n)
  {
    if colorSet == SET1 then
      if n > |Set1| then
        if n + 1 <= |Set3| then Some(CopyOfRange(Set3, n)) else None
      else Some(CopyOfRange(Set1, n))
    else
      if n > |Set2| then
        if n + 1 <= |Set3| then Some(CopyOfRange(Set3, n)) else None
      else Some(CopyOfRange(Set2, n))
  }

  /** `getColorPalette(n)`: Set1 sliced with no bound check. */
  function GetColorPaletteSet1(n: nat): (r: seq<Option<string>>)
    ensures |r| == n
    ensures forall k :: 0 <= k < n ==> (r[k].Some? <==> k < 34)
  {
    CopyOfRange(Set1, n)
  }

  /** When exactly as many colours are asked for as the chosen set holds, the
      last slot is null, because the slice starts at index 1. */
  lemma FullSetLeavesLastSlotNull()
    ensures GetColorPalette(22, SET2).value[21] == None
    ensures GetColorPalette(35, SET1).value[34] == None
    ensures forall k :: 0 <= k < 21 ==> GetColorPalette(22, SET2).value[k] == Some(Set2[k + 1])
  {
  }

  /** Between 23 and 56 colours (set 2), or 36 and 56 (set 1), every slot is
      filled from Set3. */
  lemma LargePalettesAreComplete(n: nat, colorSet: int, k: nat)
    requires (colorSet == SET1 && 35 < n <= 56) || (colorSet != SET1 && 22 < n <= 56)
    requires k < n
    ensures GetColorPalette(n, colorSet).value[k] == Some(Set3[k + 1])
  {
  }

  /** The large set is the second set followed by the first: 22 + 35 colours. */
  lemma Set3IsSet2ThenSet1()
    ensures Set3 == Set2 + Set1 && |Set3| == 57
  {
  }

  // ---------------------------------------------------------------------
  // Color.decode
  // ---------------------------------------------------------------------

  predicate HasPrefix(s: string, p: string) { |p| <= |s| && s[..|p|] == p }

  /** Value of an ASCII digit or letter in the given radix, as `Character.digit`. */
  function DigitIn(c: char, radix: nat): Option<nat>
  {
    var d: int :=
      if '0' <= c <= '9' then c as int - '0' as int
      else if 'a' <= c <= 'z' then c as int - 'a' as int + 10
      else if 'A' <= c <= 'Z' then c as int - 'A' as int + 10
      else -1;
    if 0 <= d < radix then Some(d) else None
  }

  predicate AllDigitsIn(s: string, radix: nat)
  {
    forall k :: 0 <= k < |s| ==> DigitIn(s[k], radix).Some?
  }

  function RadixValue(s: string, radix: nat): nat
    requires AllDigitsIn(s, radix)
  {
    if |s| == 0 then 0
    else RadixValue(s[..|s| - 1], radix) * radix + DigitIn(s[|s| - 1], radix).value
  }

  /** `Integer.decode`: an optional sign, then `0x`, `0X` or `#` for hexadecimal,
      a leading `0` for octal, or decimal; the value must fit in an `int`. */
  function DecodeInteger(nm: string): Option<int>
  {
    if |nm| == 0 then None
    else
      var negative := nm[0] == '-';
      var index := if nm[0] == '-' || nm[0] == '+' then 1 else 0;
      var rest := nm[index..];
      var radix: nat :=
        if HasPrefix(rest, "0x") || HasPrefix(rest, "0X") || HasPrefix(rest, "#") then 16
        else if HasPrefix(rest, "0") && |rest| > 1 then 8
        else 10;
      var digits :=
        if HasPrefix(rest, "0x") || HasPrefix(rest, "0X") then rest[2..]
        else if HasPrefix(rest, "#") || radix == 8 then rest[1..]
        else rest;
      if HasPrefix(digits, "-") || HasPrefix(digits, "+") then None
      else if |digits| == 0 || !AllDigitsIn(digits, radix) then None
      else
        var magnitude: int := RadixValue(digits, radix);
        if negative then (if -magnitude >= IntMin then Some(-magnitude) else None)
        else (if magnitude <= IntMax then Some(magnitude) else None)
  }

  /** `new Color(i)`: the channels are bits 16-23, 8-15 and 0-7 of `i`. */
  function ColorOfInt(i: int): Color
  {
    Color((i / 0x10000) % 0x100, (i / 0x100) % 0x100, i % 0x100)
  }

  /** `Color.decode(nm)`; None stands for the NumberFormatException. */
  function Decode(nm: string): Option<Color>
  {
    match DecodeInteger(nm)
    case None => None
    case Some(i) => Some(ColorOfInt(i))
  }

  // ---------------------------------------------------------------------
  // Formatter "%02X"
  // ---------------------------------------------------------------------

  function HexDigit(d: nat): char
    requires d < 16
  {
    "0123456789ABCDEF"[d]
  }

  /** `String.format("%02X", x)` for a channel value: two upper-case hex digits. */
  function Hex2(x: Channel): string
  {
    [HexDigit(x / 16), HexDigit(x % 16)]
  }

  /** "#" followed by the channels as written by `generateGroupColorsFile`. */
  function HexColor(c: Color): string
  {
    "#" + Hex2(c.red) + Hex2(c.green) + Hex2(c.blue)
  }

  lemma HexDigitValue(d: nat)
    requires d < 16
    ensures DigitIn(HexDigit(d), 16) == Some(d)
  {
  }

  lemma {:induction false} AppendHex2(s: string, x: Channel)
    requires AllDigitsIn(s, 16)
    ensures AllDigitsIn(s + Hex2(x), 16)
    ensures RadixValue(s + Hex2(x), 16) == RadixValue(s, 16) * 256 + x
  {
    HexDigitValue(x / 16);
    HexDigitValue(x % 16);
    var t := s + Hex2(x);
    assert t[..|t| - 1] == s + [HexDigit(x / 16)];
    assert (s + [HexDigit(x / 16)])[..|s|] == s;
  }

  /** A 24-bit value built from three channels gives those channels back. */
  lemma ChannelsOf(v: int, r: Channel, g: Channel, b: Channel)
    requires v == (r * 256 + g) * 256 + b
    ensures v <= 0xFF_FFFF && ColorOfInt(v) == Color(r, g, b)
  {
    assert r * 256 <= 255 * 256;
    assert (r * 256 + g) * 256 <= 0xFFFF * 256;
    assert v == r * 0x10000 + (g * 0x100 + b);
    assert v / 0x10000 == r;
    assert v / 0x100 == r * 0x100 + g;
    assert (r * 0x100 + g) % 0x100 == g;
    assert v % 0x100 == b;
  }

  /** `Integer.decode` reads `#` followed by hexadecimal digits as their value. */
  lemma DecodeHash(digits: string)
    requires |digits| > 0 && AllDigitsIn(digits, 16)
    requires RadixValue(digits, 16) <= IntMax
    ensures DecodeInteger("#" + digits) == Some(RadixValue(digits, 16) as int)
  {
    var nm := "#" + digits;
    assert nm[0..] == nm;
    assert nm[..1] == "#";
    assert nm[..2] != "0x" && nm[..2] != "0X" by { assert nm[..2][0] == '#'; }
    assert nm[1..] == digits;
    assert DigitIn(digits[0], 16).Some?;
  }

  /** The six digits written for a colour read back as its 24-bit value. */
  lemma HexValue(c: Color)
    ensures AllDigitsIn(Hex2(c.red) + Hex2(c.green) + Hex2(c.blue), 16)
    ensures RadixValue(Hex2(c.red) + Hex2(c.green) + Hex2(c.blue), 16)
            == (c.red * 256 + c.green) * 256 + c.blue
  {
    AppendHex2("", c.red);
    assert "" + Hex2(c.red) == Hex2(c.red);
    AppendHex2(Hex2(c.red), c.green);
    AppendHex2(Hex2(c.red) + Hex2(c.green), c.blue);
  }

  /** `Color.decode` reads `#` followed by hexadecimal digits as the colour
      of their value. */
  lemma DecodeHashColor(digits: string)
    requires |digits| > 0 && AllDigitsIn(digits, 16)
    requires RadixValue(digits, 16) <= IntMax
    ensures Decode("#" + digits) == Some(ColorOfInt(RadixValue(digits, 16)))
  {
    DecodeHash(digits);
  }

  /** The `#RRGGBB` text written for a colour decodes back to that colour. */
  lemma DecodeHexColor(c: Color)
    ensures Decode(HexColor(c)) == Some(c)
  {
    HexValue(c);
    HexColorDigits(c);
    DecodeColorDigits(c, Hex2(c.red) + Hex2(c.green) + Hex2(c.blue));
  }

  lemma DecodeColorDigits(c: Color, digits: string)
    requires |digits| > 0 && AllDigitsIn(digits, 16)
    requires RadixValue(digits, 16) == (c.red * 256 + c.green) * 256 + c.blue
    ensures Decode("#" + digits) == Some(c)
  {
    ChannelsOf(RadixValue(digits, 16), c.red, c.green, c.blue);
    DecodeHashColor(digits);
  }

  /** A hexadecimal numeral of at most six digits is below 16^6. */
  lemma {:induction false} HexBelow(s: string)
    requires AllDigitsIn(s, 16) && |s| <= 6
    ensures RadixValue(s, 16) < [1, 0x10, 0x100, 0x1000, 0x1_0000, 0x10_0000, 0x100_0000][|s|]
  {
    if |s| > 0 {
      var t := s[..|s| - 1];
      assert AllDigitsIn(t, 16) by {
        forall k | 0 <= k < |t| ensures DigitIn(t[k], 16).Some? { assert t[k] == s[k]; }
      }
      HexBelow(t);
    }
  }

  /** A `#` and six hexadecimal digits: the form of every palette entry. */
  predicate SixHexColor(t: string)
  {
    |t| == 7 && t[0] == '#' && AllDigitsIn(t[1..], 16)
  }

  lemma SixHexDecodes(t: string)
    requires SixHexColor(t)
    ensures Decode(t).Some?
  {
    HexBelow(t[1..]);
    assert t == "#" + t[1..];
    DecodeHashColor(t[1..]);
  }

  /** Every entry of the palettes is `#` followed by six hexadecimal digits, so
      `Color.decode` accepts it. */
  lemma PaletteEntriesDecode()
    ensures forall k :: 0 <= k < |Set3| ==> SixHexColor(Set3[k]) && Decode(Set3[k]).Some?
    ensures forall k :: 0 <= k < |Set2| ==> Set2[k] == Set3[k]
  {
    Set3IsSet2ThenSet1();
    Set1SixHex();
    Set2SixHex();
    forall k | 0 <= k < |Set3|
      ensures SixHexColor(Set3[k]) && Decode(Set3[k]).Some?
    {
      if k < |Set2| {
        assert Set3[k] == Set2[k];
      } else {
        assert Set3[k] == Set1[k - |Set2|];
      }
      SixHexDecodes(Set3[k]);
    }
  }

  lemma Set1SixHex()
    ensures forall k :: 0 <= k < |Set1| ==> SixHexColor(Set1[k])
  {
    Set1HeadSixHex();
    Set1TailSixHex();
  }

  lemma Set1HeadSixHex()
    ensures forall k :: 0 <= k < 18 ==> SixHexColor(Set1[k])
  {
  }

  lemma Set1TailSixHex()
    ensures forall k :: 18 <= k < |Set1| ==> SixHexColor(Set1[k])
  {
  }

  lemma Set2SixHex()
    ensures forall k :: 0 <= k < |Set2| ==> SixHexColor(Set2[k])
  {
    Set2HeadSixHex();
    Set2TailSixHex();
  }

  lemma Set2HeadSixHex()
    ensures forall k :: 0 <= k < 11 ==> SixHexColor(Set2[k])
  {
  }

  lemma Set2TailSixHex()
    ensures forall k :: 11 <= k < |Set2| ==> SixHexColor(Set2[k])
  {
  }

  lemma HexColorDigits(c: Color)
    ensures HexColor(c) == "#" + (Hex2(c.red) + Hex2(c.green) + Hex2(c.blue))
  {
  }
}
