/** `narrowColor` and `narrowDimension` of src/graphics.ts.

    A colour is a four-element array, an {r, g, b, a} object, or a string.
    A string must match `^#` followed by three or four characters of the
    class `[0-Fa-f]`, or by three or four pairs of them.  Each group is read
    by `parseInt(group, 16)` and divided by 15 (single characters) or 255
    (pairs).  A fourth group that did not match is `undefined`, so it parses
    to NaN.  Whatever the input, a NaN alpha becomes 1.

    Two details come from the code and are kept.  The class `[0-F]` runs
    from '0' to 'F' and so also admits ':' ';' '<' '=' '>' '?' '@'.
    `parseInt` reads only the longest prefix of hexadecimal digits, and
    gives NaN when there is none.  This is looser than the hexadecimal
    colour notation of CSS Color Module Level 4, section 5.2, which admits
    hexadecimal digits only. */
module Colors {
  import opened Numerics

  /** `Vec4<GLclampf>`. */
  datatype Vec4 = Vec4(r: Num, g: Num, b: Num, a: Num)

  /** `Types.Color`. */
  datatype Color = ColorArray(c: Vec4) | ColorObject(c: Vec4) | ColorString(s: string)

  /** `new Error('Invalid color data', {cause: color})`. */
  datatype ColorError = InvalidColorData(cause: string)

  /** A character of the regular-expression class `[0-Fa-f]`. */
  predicate InClass(c: char)
  {
    '0' <= c <= 'F' || 'a' <= c <= 'f'
  }

  /** The value of a base-16 digit, or `None` for any other character. */
  function DigitValue(c: char): (r: Option<nat>)
    ensures r.Some? ==> r.value < 16
  {
    if '0' <= c <= '9' then Some(c as nat - '0' as nat)
    else if 'A' <= c <= 'F' then Some(c as nat - 'A' as nat + 10)
    else if 'a' <= c <= 'f' then Some(c as nat - 'a' as nat + 10)
    else None
  }

  /** The value of the longest prefix of digits, accumulated onto `acc`. */
  function PrefixValue(v: string, acc: nat): nat
    decreases |v|
  {
    if |v| == 0 || DigitValue(v[0]).None? then acc
    else PrefixValue(v[1..], acc * 16 + DigitValue(v[0]).value)
  }

  /** `parseInt(v, 16)` for a group of class characters (no sign, no
      blanks, no `0x`): NaN when the group does not start with a digit. */
  function ParseHex(v: string): Num
  {
    if |v| == 0 || DigitValue(v[0]).None? then NaN else Fin(PrefixValue(v, 0) as real)
  }

  /** `parseInt(group, 16) / scale`; a group that did not take part in the
      match is `undefined` and parses to NaN. */
  function Channel(group: Option<string>, scale: real): Num
    requires scale > 0.0
  {
    match group
    case None => NaN
    case Some(g) => if ParseHex(g).NaN? then NaN else Fin(ParseHex(g).v / scale)
  }

  /** Every character after the '#' is in the class. */
  predicate ClassTail(s: string)
  {
    forall i :: 1 <= i < |s| ==> InClass(s[i])
  }

  /** The groups of `^#([0-Fa-f])([0-Fa-f])([0-Fa-f])([0-Fa-f])?$`. */
  function Match4(s: string): (r: Option<seq<Option<string>>>)
    ensures r.Some? ==> |r.value| == 4
  {
    if (|s| == 4 || |s| == 5) && s[0] == '#' && ClassTail(s) then
      Some([Some(s[1..2]), Some(s[2..3]), Some(s[3..4]), if |s| == 5 then Some(s[4..5]) else None])
    else None
  }

  /** The groups of `^#([0-Fa-f][0-Fa-f])` three times, then the same
      pair once more, optionally. */
  function Match8(s: string): (r: Option<seq<Option<string>>>)
    ensures r.Some? ==> |r.value| == 4
  {
    if (|s| == 7 || |s| == 9) && s[0] == '#' && ClassTail(s) then
      Some([Some(s[1..3]), Some(s[3..5]), Some(s[5..7]), if |s| == 9 then Some(s[7..9]) else None])
    else None
  }

  /** The parsed groups as a colour. */
  function Channels(groups: seq<Option<string>>, scale: real): Vec4
    requires |groups| == 4 && scale > 0.0
  {
    Vec4(Channel(groups[0], scale), Channel(groups[1], scale), Channel(groups[2], scale), Channel(groups[3], scale))
  }

  /** `if (Number.isNaN(ret[3])) ret[3] = 1`. */
  function FixAlpha(c: Vec4): (r: Vec4)
    ensures r.r == c.r && r.g == c.g && r.b == c.b
    ensures r.a == (if c.a.NaN? then Fin(1.0) else c.a)
  {
    if c.a.NaN? then c.(a := Fin(1.0)) else c
  }

  /** `narrowColor(color)`. */
  function NarrowColor(color: Color): (r: Result<Vec4, ColorError>)
    ensures r.Err? <==> color.ColorString? && Match4(color.s).None? && Match8(color.s).None?
    ensures r.Ok? ==> r.value.a.Fin?
  {
    match color
    case ColorArray(c) => Ok(FixAlpha(c))
    case ColorObject(c) => Ok(FixAlpha(c))
    case ColorString(s) =>
      match Match4(s)
      case Some(groups) => Ok(FixAlpha(Channels(groups, 15.0)))
      case None =>
        match Match8(s)
        case Some(groups) => Ok(FixAlpha(Channels(groups, 255.0)))
        case None => Err(InvalidColorData(s))
  }

  /** An array or object colour comes back as it was, except that a NaN
      alpha becomes 1. */
  lemma ArraysAndObjectsKept(c: Vec4)
    ensures NarrowColor(ColorArray(c)) == NarrowColor(ColorObject(c))
    ensures NarrowColor(ColorArray(c)) == Ok(if c.a.NaN? then c.(a := Fin(1.0)) else c)
  {
  }

  /** A string of the wrong length, or one that does not start with '#',
      is refused. */
  lemma WrongShapeRefused(s: string)
    requires !(|s| in {4, 5, 7, 9}) || (|s| > 0 && s[0] != '#')
    ensures NarrowColor(ColorString(s)) == Err(InvalidColorData(s))
  {
  }

  /** The lower-case digit character of a value below 16. */
  function DigitChar(v: nat): (c: char)
    requires v < 16
    ensures InClass(c) && DigitValue(c) == Some(v)
  {
    if v < 10 then ('0' as nat + v) as char else ('a' as nat + v - 10) as char
  }

  /** `#` followed by one digit per value: the short notation. */
  function ShortHex(values: seq<nat>): (s: string)
    requires forall i :: 0 <= i < |values| ==> values[i] < 16
    ensures |s| == |values| + 1 && s[0] == '#'
    ensures forall i :: 0 <= i < |values| ==> s[i + 1] == DigitChar(values[i])
  {
    "#" + seq(|values|, i requires 0 <= i < |values| => DigitChar(values[i]))
  }

  /** Two digits per value, high digit first. */
  function Pairs(values: seq<nat>): (s: string)
    requires forall i :: 0 <= i < |values| ==> values[i] < 256
    ensures |s| == 2 * |values|
    ensures forall i :: 0 <= i < |values| ==>
      s[2 * i] == DigitChar(values[i] / 16) && s[2 * i + 1] == DigitChar(values[i] % 16)
  {
    if |values| == 0 then []
    else [DigitChar(values[0] / 16), DigitChar(values[0] % 16)] + Pairs(values[1..])
  }

  /** `#` followed by two digits per value: the long notation. */
  function LongHex(values: seq<nat>): (s: string)
    requires forall i :: 0 <= i < |values| ==> values[i] < 256
    ensures |s| == 2 * |values| + 1 && s[0] == '#'
    ensures forall i :: 0 <= i < |values| ==>
      s[2 * i + 1] == DigitChar(values[i] / 16) && s[2 * i + 2] == DigitChar(values[i] % 16)
  {
    "#" + Pairs(values)
  }

  /** A one-digit group parses to the digit's value. */
  lemma ParseOneDigit(v: nat)
    requires v < 16
    ensures ParseHex([DigitChar(v)]) == Fin(v as real)
  {
    var g := [DigitChar(v)];
    assert g[1..] == [];
    assert PrefixValue(g, 0) == PrefixValue([], v) == v;
  }

  /** A two-digit group parses to 16 times the first digit plus the second. */
  lemma ParseTwoDigits(hi: nat, lo: nat)
    requires hi < 16 && lo < 16
    ensures ParseHex([DigitChar(hi), DigitChar(lo)]) == Fin((16 * hi + lo) as real)
  {
    var g := [DigitChar(hi), DigitChar(lo)];
    assert g[1..] == [DigitChar(lo)] && g[1..][1..] == [];
    assert PrefixValue(g, 0) == PrefixValue([DigitChar(lo)], hi) == PrefixValue([], 16 * hi + lo);
  }

  /** The short notation reads back as digit / 15 per channel; with three
      digits the alpha is 1. */
  lemma ShortHexRoundTrip(values: seq<nat>)
    requires |values| == 3 || |values| == 4
    requires forall i :: 0 <= i < |values| ==> values[i] < 16
    ensures NarrowColor(ColorString(ShortHex(values))) == Ok(Vec4(
      Fin(values[0] as real / 15.0), Fin(values[1] as real / 15.0), Fin(values[2] as real / 15.0),
      Fin(if |values| == 4 then values[3] as real / 15.0 else 1.0)))
  {
    var s := ShortHex(values);
    assert ClassTail(s);
    forall i | 0 <= i < |values|
      ensures Channel(Some(s[i + 1..i + 2]), 15.0) == Fin(values[i] as real / 15.0)
    {
      assert s[i + 1..i + 2] == [DigitChar(values[i])];
      ParseOneDigit(values[i]);
    }
  }

  /** Every character of the long notation after the '#' is in the class. */
  lemma LongHexInClass(values: seq<nat>)
    requires forall i :: 0 <= i < |values| ==> values[i] < 256
    ensures ClassTail(LongHex(values))
  {
    var s := LongHex(values);
    forall k | 1 <= k < |s|
      ensures InClass(s[k])
    {
      var i := (k - 1) / 2;
      assert i < |values|;
      if k == 2 * i + 1 {
        assert s[k] == DigitChar(values[i] / 16);
      } else {
        assert k == 2 * i + 2;
        assert s[k] == DigitChar(values[i] % 16);
      }
    }
  }

  /** One pair of the long notation reads back as its byte / 255. */
  lemma LongHexChannel(values: seq<nat>, i: nat)
    requires forall i :: 0 <= i < |values| ==> values[i] < 256
    requires i < |values|
    ensures Channel(Some(LongHex(values)[2 * i + 1..2 * i + 3]), 255.0) == Fin(values[i] as real / 255.0)
  {
    var s := LongHex(values);
    assert s[2 * i + 1..2 * i + 3] == [DigitChar(values[i] / 16), DigitChar(values[i] % 16)];
    ParseTwoDigits(values[i] / 16, values[i] % 16);
    assert 16 * (values[i] / 16) + values[i] % 16 == values[i];
  }

  /** The long notation reads back as byte / 255 per channel; with three
      bytes the alpha is 1. */
  lemma LongHexRoundTrip(values: seq<nat>)
    requires |values| == 3 || |values| == 4
    requires forall i :: 0 <= i < |values| ==> values[i] < 256
    ensures NarrowColor(ColorString(LongHex(values))) == Ok(Vec4(
      Fin(values[0] as real / 255.0), Fin(values[1] as real / 255.0), Fin(values[2] as real / 255.0),
      Fin(if |values| == 4 then values[3] as real / 255.0 else 1.0)))
  {
    var s := LongHex(values);
    LongHexInClass(values);
    assert Match4(s).None?;
    LongHexChannel(values, 0);
    LongHexChannel(values, 1);
    LongHexChannel(values, 2);
    if |values| == 4 {
      LongHexChannel(values, 3);
    }
  }

  /** The class admits ':' through '@', which are not digits: a channel
      that starts with one is NaN. */
  lemma NonDigitChannelIsNaN()
    ensures NarrowColor(ColorString("#:00")) == Ok(Vec4(NaN, Fin(0.0), Fin(0.0), Fin(1.0)))
  {
    var s := "#:00";
    assert ClassTail(s);
    assert s[1..2] == ":" && s[2..3] == "0" && s[3..4] == "0";
    assert Match4(s) == Some([Some(":"), Some("0"), Some("0"), None]);
    assert ParseHex(":") == NaN;
    assert PrefixValue("0", 0) == PrefixValue([], 0) == 0 by {
      assert "0"[1..] == [];
    }
    assert Channel(Some("0"), 15.0) == Fin(0.0);
  }

  /** A channel whose second character is one of ':' through '@' reads only
      its leading digit. */
  lemma NonDigitEndsChannel()
    ensures NarrowColor(ColorString("#a:0000")) == Ok(Vec4(Fin(10.0 / 255.0), Fin(0.0), Fin(0.0), Fin(1.0)))
  {
    var s := "#a:0000";
    assert ClassTail(s);
    assert s[1..3] == "a:" && s[3..5] == "00" && s[5..7] == "00";
    assert Match4(s).None?;
    assert Match8(s) == Some([Some("a:"), Some("00"), Some("00"), None]);
    assert PrefixValue("a:", 0) == PrefixValue(":", 10) == 10 by {
      assert "a:"[1..] == ":";
    }
    assert PrefixValue("00", 0) == PrefixValue("0", 0) == PrefixValue([], 0) == 0 by {
      assert "00"[1..] == "0" && "0"[1..] == [];
    }
    assert Channel(Some("a:"), 255.0) == Fin(10.0 / 255.0);
    assert Channel(Some("00"), 255.0) == Fin(0.0);
  }

  /** `Types.Dimension`: an [x, y, width, height] array or an object. */
  datatype Dimension = DimensionArray(v: Dim4) | DimensionObject(x: int, y: int, width: int, height: int)

  /** `Vec4<GLint, GLint, GLsizei, GLsizei>`. */
  datatype Dim4 = Dim4(x: int, y: int, width: int, height: int)

  /** `narrowDimension(d)`: an array is copied, an object listed in the
      order x, y, width, height. */
  function NarrowDimension(d: Dimension): Dim4
  {
    match d
    case DimensionArray(v) => v
    case DimensionObject(x, y, w, h) => Dim4(x, y, w, h)
  }

  /** The two forms of the same rectangle narrow to the same array. */
  lemma DimensionFormsAgree(x: int, y: int, w: int, h: int)
    ensures NarrowDimension(DimensionObject(x, y, w, h)) == NarrowDimension(DimensionArray(Dim4(x, y, w, h)))
  {
  }
}
