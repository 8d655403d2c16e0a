/** ThemeUtils: hex colour parsing and the colour arithmetic the theme CSS
    uses. Floats are modelled as reals; alpha values are passed in already
    formatted. */
module Theme {
  import opened Wrappers
  import opened Text

  datatype Rgb = Rgb(r: int, g: int, b: int)

  predicate InRange(c: Rgb)
  {
    0 <= c.r < 256 && 0 <= c.g < 256 && 0 <= c.b < 256
  }

  predicate IsHexDigit(c: char)
  {
    '0' <= c <= '9' || 'a' <= c <= 'f' || 'A' <= c <= 'F'
  }

  predicate AllHex(s: string)
  {
    forall i :: 0 <= i < |s| ==> IsHexDigit(s[i])
  }

  function DigitValue(c: char): (v: nat)
    requires IsHexDigit(c)
    ensures v < 16
  {
    if '0' <= c <= '9' then c as int - '0' as int
    else if 'a' <= c <= 'f' then c as int - 'a' as int + 10
    else c as int - 'A' as int + 10
  }

  function Pow16(n: nat): (p: nat)
    ensures p >= 1
  {
    if n == 0 then 1 else 16 * Pow16(n - 1)
  }

  /** The value of a string of hex digits, most significant first. */
  function HexNumber(digits: string): (v: nat)
    requires AllHex(digits)
    ensures v < Pow16(|digits|)
    decreases |digits|
  {
    if digits == [] then 0
    else HexNumber(digits[..|digits| - 1]) * 16 + DigitValue(digits[|digits| - 1])
  }

  /** The white space NumberStyles.AllowLeadingWhite and AllowTrailingWhite
      skip: U+0009 to U+000D and the space. */
  predicate IsParseWhite(c: char)
  {
    0x09 <= c as int <= 0x0D || c == ' '
  }

  /** `int.TryParse(s, NumberStyles.HexNumber, ...)` on a string of at most
      six characters (so the value always fits): at least one hex digit,
      optionally surrounded by white space, and nothing else. */
  function ParseHex(s: string): (r: Option<nat>)
    ensures r.Some? ==> r.value < Pow16(|s|)
  {
    var core := TrimEndWhere(TrimStartWhere(s, IsParseWhite), IsParseWhite);
    if |core| > 0 && AllHex(core) then
      Pow16Monotone(|core|, |s|);
      Some(HexNumber(core))
    else None
  }

  lemma {:induction false} Pow16Monotone(m: nat, n: nat)
    requires m <= n
    ensures Pow16(m) <= Pow16(n)
    decreases n
  {
    if m < n {
      Pow16Monotone(m, n - 1);
    }
  }

  /** `string.Join("", hex.Select(c => new string(c, 2)))` on three
      characters. */
  function ExpandShort(s: string): (r: string)
    requires |s| == 3
    ensures |r| == 6 && forall i :: 0 <= i < 6 ==> r[i] == s[i / 2]
  {
    [s[0], s[0], s[1], s[1], s[2], s[2]]
  }

  /** The six characters TryGetRgb parses: the input without its leading
      '#' characters, a three-character form expanded. */
  function Normalised(hex: string): string
  {
    var h := TrimStartChar(hex, '#');
    if |h| == 3 then ExpandShort(h) else h
  }

  /** `(val >> 16) & 0xFF`, `(val >> 8) & 0xFF`, `val & 0xFF`. */
  function Channels(v: nat): (c: Rgb)
    ensures InRange(c)
  {
    Rgb(v / 65536 % 256, v / 256 % 256, v % 256)
  }

  /** TryGetRgb: `None` stands for the `false` result. */
  function TryGetRgb(hex: string): (r: Option<Rgb>)
    ensures r.Some? ==> InRange(r.value)
    ensures r.Some? ==> |hex| > 0 && (|TrimStartChar(hex, '#')| == 3 || |TrimStartChar(hex, '#')| == 6)
    ensures r.Some? ==> ParseHex(Normalised(hex)) == Some(r.value.r * 65536 + r.value.g * 256 + r.value.b)
  {
    if |hex| == 0 then None
    else
      var h := Normalised(hex);
      if |h| != 6 then None
      else match ParseHex(h)
        case None => None
        case Some(v) =>
          assert Pow16(6) == 16777216;
          ChannelsRecombine(v);
          Some(Channels(v))
  }

  lemma ChannelsRecombine(v: nat)
    requires v < 16777216
    ensures Channels(v).r * 65536 + Channels(v).g * 256 + Channels(v).b == v
  {
    var hi := v / 65536;
    var lo := v % 65536;
    assert v == hi * 65536 + lo;
    assert hi < 256;
    assert v / 256 == hi * 256 + lo / 256;
    assert v / 256 % 256 == lo / 256;
    assert v % 256 == lo % 256;
  }

  // Formatting: `{value:X2}`, two upper-case hex digits.

  function HexChar(d: nat): (c: char)
    requires d < 16
    ensures IsHexDigit(c) && !('a' <= c <= 'z') && DigitValue(c) == d
  {
    if d < 10 then ('0' as int + d) as char else ('A' as int + d - 10) as char
  }

  function X2(n: int): (s: string)
    requires 0 <= n < 256
    ensures |s| == 2 && AllHex(s) && HexNumber(s) == n
  {
    var s := [HexChar(n / 16), HexChar(n % 16)];
    assert s[..1] == [HexChar(n / 16)] && [HexChar(n / 16)][..0] == [];
    s
  }

  /** `#RRGGBB` with upper-case digits. */
  function Format(c: Rgb): (s: string)
    requires InRange(c)
    ensures |s| == 7 && s[0] == '#' && AllHex(s[1..])
    ensures forall i :: 1 <= i < 7 ==> !('a' <= s[i] <= 'z')
  {
    "#" + (X2(c.r) + X2(c.g) + X2(c.b))
  }

  lemma {:induction false} HexNumberAppend(a: string, b: string)
    requires AllHex(a) && AllHex(b)
    ensures AllHex(a + b)
    ensures HexNumber(a + b) == HexNumber(a) * Pow16(|b|) + HexNumber(b)
    decreases |b|
  {
    if b == [] {
      assert a + b == a;
    } else {
      var b' := b[..|b| - 1];
      var last := b[|b| - 1];
      assert AllHex(b');
      HexNumberAppend(a, b');
      assert (a + b)[..|a + b| - 1] == a + b';
      assert (a + b)[|a + b| - 1] == last;
      assert HexNumber(a + b) == HexNumber(a + b') * 16 + DigitValue(last);
      assert HexNumber(b) == HexNumber(b') * 16 + DigitValue(last);
      ShiftDigit(HexNumber(a), Pow16(|b'|), HexNumber(b'), DigitValue(last));
    }
  }

  lemma ShiftDigit(x: int, p: int, y: int, d: int)
    ensures (x * p + y) * 16 + d == x * (16 * p) + (y * 16 + d)
  {
  }

  lemma NoParseWhite(s: string)
    requires AllHex(s) && |s| > 0
    ensures ParseHex(s) == Some(HexNumber(s))
  {
    assert LeadingCount(s, IsParseWhite) == 0 by { assert !IsParseWhite(s[0]); }
    assert TrimStartWhere(s, IsParseWhite) == s;
    assert TrailingCount(s, IsParseWhite) == 0 by { assert !IsParseWhite(s[|s| - 1]); }
    assert TrimEndWhere(TrimStartWhere(s, IsParseWhite), IsParseWhite) == s;
  }

  /** The six digits Format writes after the '#', and their value. */
  lemma FormatDigits(c: Rgb)
    requires InRange(c)
    ensures AllHex(X2(c.r) + X2(c.g) + X2(c.b)) && |X2(c.r) + X2(c.g) + X2(c.b)| == 6
    ensures Format(c) == "#" + (X2(c.r) + X2(c.g) + X2(c.b))
    ensures HexNumber(X2(c.r) + X2(c.g) + X2(c.b)) == c.r * 65536 + c.g * 256 + c.b
  {
    HexNumberAppend(X2(c.r), X2(c.g));
    HexNumberAppend(X2(c.r) + X2(c.g), X2(c.b));
    assert Pow16(2) == 256;
  }

  /** One '#' before six hex digits is stripped, and nothing else is. */
  lemma HashThenDigits(d: string)
    requires |d| == 6 && AllHex(d)
    ensures Normalised("#" + d) == d
  {
    var s := "#" + d;
    assert s[1..] == d;
    assert LeadingCount(s, x => x == '#') == 1 by {
      assert s[1] != '#';
    }
  }

  /** A string that normalises to six hex digits is read as their value. */
  lemma ReadsSix(hex: string, d: string, c: Rgb)
    requires |hex| > 0 && Normalised(hex) == d && |d| == 6 && AllHex(d)
    requires Channels(HexNumber(d)) == c
    ensures TryGetRgb(hex) == Some(c)
  {
    NoParseWhite(d);
  }

  lemma ChannelsOf(c: Rgb)
    requires InRange(c)
    ensures Channels(c.r * 65536 + c.g * 256 + c.b) == c
  {
    var v := c.r * 65536 + c.g * 256 + c.b;
    assert v / 65536 == c.r && v % 65536 == c.g * 256 + c.b;
    assert v / 256 == c.r * 256 + c.g && v % 256 == c.b;
  }

  /** What Format writes, TryGetRgb reads back. */
  lemma FormatParses(c: Rgb)
    requires InRange(c)
    ensures TryGetRgb(Format(c)) == Some(c)
  {
    var digits := X2(c.r) + X2(c.g) + X2(c.b);
    FormatDigits(c);
    HashThenDigits(digits);
    ChannelsOf(c);
    ReadsSix(Format(c), digits, c);
  }

  /** TrimStart('#') removes every leading '#', so any number of them is
      accepted. */
  lemma HashesIgnored(hex: string)
    requires |hex| > 0
    ensures TryGetRgb("#" + hex) == TryGetRgb(hex)
  {
    assert ("#" + hex)[1..] == hex;
    assert LeadingCount("#" + hex, x => x == '#') == 1 + LeadingCount(hex, x => x == '#');
    assert TrimStartChar("#" + hex, '#') == TrimStartChar(hex, '#');
  }

  /** Six hex digits are read as their value. */
  lemma SixDigitsAccepted(h: string)
    requires |h| == 6 && AllHex(h)
    ensures TryGetRgb(h) == Some(Channels(HexNumber(h)))
  {
    assert LeadingCount(h, x => x == '#') == 0 by { assert h[0] != '#'; }
    ReadsSix(h, h, Channels(HexNumber(h)));
  }

  /** Three hex digits are read as the six with each one doubled. */
  lemma ThreeDigitsDoubled(h: string)
    requires |h| == 3 && AllHex(h)
    ensures TryGetRgb(h) == TryGetRgb(ExpandShort(h))
    ensures TryGetRgb(h) == Some(Channels(HexNumber(ExpandShort(h))))
  {
    assert LeadingCount(h, x => x == '#') == 0 by { assert h[0] != '#'; }
    assert Normalised(h) == ExpandShort(h);
    SixDigitsAccepted(ExpandShort(h));
  }

  /** Any other length is refused, whatever the characters. */
  lemma OtherLengthsRefused(hex: string)
    requires |TrimStartChar(hex, '#')| != 3 && |TrimStartChar(hex, '#')| != 6
    ensures TryGetRgb(hex).None?
  {
  }

  /** The hex parser skips white space around the digits, so a space and
      five digits make a colour. */
  lemma SurroundingWhiteAccepted(h: string)
    requires |h| == 5 && AllHex(h)
    ensures TryGetRgb(" " + h) == Some(Channels(HexNumber(h)))
  {
    var s := " " + h;
    assert s[1..] == h;
    assert LeadingCount(s, x => x == '#') == 0;
    assert Normalised(s) == s;
    assert LeadingCount(s, IsParseWhite) == 1 by {
      assert LeadingCount(h, IsParseWhite) == 0 by { assert !IsParseWhite(h[0]); }
    }
    assert TrimStartWhere(s, IsParseWhite) == h;
    assert TrailingCount(h, IsParseWhite) == 0 by { assert !IsParseWhite(h[4]); }
    assert TrimEndWhere(h, IsParseWhite) == h;
    Pow16Monotone(5, 6);
    assert Pow16(6) == 16777216;
  }

  // AdjustBrightness.

  /** The `(int)` cast of a double: truncation toward zero. */
  function Truncate(x: real): (n: int)
    ensures x >= 0.0 ==> n as real <= x < n as real + 1.0
    ensures x < 0.0 ==> n as real - 1.0 < x <= n as real
  {
    if x >= 0.0 then x.Floor else -((-x).Floor)
  }

  /** Math.Clamp(v, 0, 255). */
  function Clamp(v: int): (r: int)
    ensures 0 <= r < 256
    ensures 0 <= v < 256 ==> r == v
    ensures v < 0 ==> r == 0
    ensures v > 255 ==> r == 255
  {
    if v < 0 then 0 else if v > 255 then 255 else v
  }

  /** One channel: a negative factor scales toward black by `1 + factor`,
      any other moves toward white by `factor`. */
  function Scaled(c: int, factor: real): int
  {
    if factor < 0.0 then Truncate(c as real * (1.0 + factor))
    else Truncate((255 - c) as real * factor + c as real)
  }

  function Adjusted(c: Rgb, factor: real): (a: Rgb)
    ensures InRange(a)
  {
    Rgb(Clamp(Scaled(c.r, factor)), Clamp(Scaled(c.g, factor)), Clamp(Scaled(c.b, factor)))
  }

  /** The colour AdjustBrightness writes: `#000000` for an unreadable
      colour, otherwise the adjusted channels, clamped, as `#RRGGBB`. */
  function BrightnessAdjusted(hex: string, factor: real): (r: string)
    ensures |r| == 7 && r[0] == '#' && AllHex(r[1..])
    ensures forall i :: 1 <= i < 7 ==> !('a' <= r[i] <= 'z')
  {
    match TryGetRgb(hex)
    case None => "#000000"
    case Some(c) => Format(Adjusted(c, factor))
  }

  /** AdjustBrightness: reads the colour, then moves each channel on a
      local variable. */
  method AdjustBrightness(hex: string, factor: real) returns (r: string)
    ensures r == BrightnessAdjusted(hex, factor)
  {
    var parsed := TryGetRgb(hex);
    if parsed.None? {
      return "#000000";
    }
    var adjusted := AdjustChannels(parsed.value, factor);
    r := Format(adjusted);
  }

  /** The channel arithmetic of AdjustBrightness, before formatting. */
  method AdjustChannels(c: Rgb, factor: real) returns (adjusted: Rgb)
    ensures adjusted == Adjusted(c, factor)
  {
    var red := AdjustChannel(c.r, factor);
    var green := AdjustChannel(c.g, factor);
    var blue := AdjustChannel(c.b, factor);
    adjusted := Rgb(Clamp(red), Clamp(green), Clamp(blue));
  }

  /** One channel: the factor is first turned into `1 + factor` when it is
      negative, then the `(int)` cast truncates. */
  method AdjustChannel(v: int, factor: real) returns (w: int)
    ensures w == Scaled(v, factor)
  {
    var f := factor;
    if f < 0.0 {
      f := 1.0 + f;
      w := Truncate(v as real * f);
    } else {
      w := Truncate((255 - v) as real * f + v as real);
    }
  }

  method Lighten(hex: string, factor: real) returns (r: string)
    ensures r == BrightnessAdjusted(hex, factor)
  {
    r := AdjustBrightness(hex, factor);
  }

  /** Darken is AdjustBrightness with the negated factor; an unreadable
      colour still gives black. */
  method Darken(hex: string, factor: real) returns (r: string)
    ensures r == BrightnessAdjusted(hex, -factor)
  {
    r := AdjustBrightness(hex, -factor);
    if TryGetRgb(hex).None? {
      assert r == "#000000";
    }
  }

  /** The adjusted colour reads back as the clamped channels; an unreadable
      one as black. */
  lemma AdjustBrightnessParses(hex: string, factor: real)
    ensures TryGetRgb(hex).None? ==> TryGetRgb(BrightnessAdjusted(hex, factor)) == Some(Rgb(0, 0, 0))
    ensures TryGetRgb(hex).Some? ==>
      TryGetRgb(BrightnessAdjusted(hex, factor)) == Some(Adjusted(TryGetRgb(hex).value, factor))
  {
    match TryGetRgb(hex)
    case None =>
      assert BrightnessAdjusted(hex, factor) == "#000000";
      BlackReads();
    case Some(c) =>
      assert BrightnessAdjusted(hex, factor) == Format(Adjusted(c, factor));
      FormatParses(Adjusted(c, factor));
  }

  /** Lightening by a factor in [0, 1] moves every channel up, darkening
      moves every channel down. */
  lemma LightenDarkenDirection(c: int, f: real)
    requires 0 <= c < 256 && 0.0 <= f <= 1.0
    ensures c <= Clamp(Scaled(c, f))
    ensures Clamp(Scaled(c, -f)) <= c
  {
    ScaledUp(c, f);
    ScaledDown(c, f);
  }

  /** A non-negative factor never lowers a channel. */
  lemma ScaledUp(c: int, f: real)
    requires 0 <= c < 256 && 0.0 <= f
    ensures c <= Scaled(c, f)
  {
    var gap := (255 - c) as real;
    ProductNonNegative(gap, f);
    var x := gap * f + c as real;
    assert c as real <= x;
    assert Scaled(c, f) == Truncate(x);
  }

  /** A negated factor in [0, 1] never raises a channel. */
  lemma ScaledDown(c: int, f: real)
    requires 0 <= c < 256 && 0.0 <= f <= 1.0
    ensures Scaled(c, -f) <= c
  {
    if f > 0.0 {
      var g := 1.0 - f;
      ProductAtMost(c as real, g);
      var x := c as real * g;
      ProductNonNegative(c as real, g);
      assert Scaled(c, -f) == Truncate(x);
    } else {
      assert Scaled(c, -f) == Truncate(c as real);
    }
  }

  lemma ProductNonNegative(a: real, b: real)
    requires 0.0 <= a && 0.0 <= b
    ensures 0.0 <= a * b
  {
  }

  lemma ProductAtMost(a: real, b: real)
    requires 0.0 <= a && 0.0 <= b <= 1.0
    ensures a * b <= a
  {
    assert a * b + a * (1.0 - b) == a;
    ProductNonNegative(a, 1.0 - b);
  }

  /** A literal that Format writes reads back as its colour. */
  lemma ReadsFormatted(c: Rgb, s: string)
    requires InRange(c) && Format(c) == s
    ensures TryGetRgb(s) == Some(c)
  {
    FormatParses(c);
  }

  /** Adjusting a colour Format wrote gives the formatted adjusted colour. */
  lemma AdjustFormatted(c: Rgb, s: string, factor: real, t: string)
    requires InRange(c) && Format(c) == s && Format(Adjusted(c, factor)) == t
    ensures BrightnessAdjusted(s, factor) == t
  {
    FormatParses(c);
  }

  /** Lightening #101010 by one half gives #878787. */
  lemma LightenScenario()
    ensures BrightnessAdjusted("#101010", 0.5) == "#878787"
  {
    assert Scaled(16, 0.5) == 135;
    assert Adjusted(Rgb(16, 16, 16), 0.5) == Rgb(135, 135, 135);
    AdjustFormatted(Rgb(16, 16, 16), "#101010", 0.5, "#878787");
  }

  // HexToRgba and GetSmartHighlightBase.

  /** The channels HexToRgba prints into `rgba(r, g, b, alpha)`: black for
      an unreadable colour. */
  function HexToRgba(hex: string): (c: Rgb)
    ensures InRange(c)
    ensures TryGetRgb(hex).None? ==> c == Rgb(0, 0, 0)
    ensures TryGetRgb(hex).Some? ==> c == TryGetRgb(hex).value
  {
    match TryGetRgb(hex)
    case Some(c) => c
    case None => Rgb(0, 0, 0)
  }

  /** The colours of the HexToRgba tests: with and without '#', the short
      form, and an unreadable string. */
  lemma HexToRgbaRed()
    ensures HexToRgba("#FF0000") == Rgb(255, 0, 0)
  {
    ReadsFormatted(Rgb(255, 0, 0), "#FF0000");
  }

  lemma HexToRgbaGreen()
    ensures HexToRgba("#00FF00") == Rgb(0, 255, 0)
  {
    ReadsFormatted(Rgb(0, 255, 0), "#00FF00");
  }

  lemma HexToRgbaWithoutHash()
    ensures HexToRgba("0000FF") == Rgb(0, 0, 255)
  {
    ReadsBare(Rgb(0, 0, 255), "0000FF");
  }

  lemma HexToRgbaShort()
    ensures HexToRgba("#FFF") == Rgb(255, 255, 255)
  {
    ShortWhite();
  }

  lemma HexToRgbaInvalid()
    ensures HexToRgba("INVALID") == Rgb(0, 0, 0)
  {
    InvalidUnread();
  }

  /** The same digits without the '#' read the same. */
  lemma ReadsBare(c: Rgb, s: string)
    requires InRange(c) && |s| > 0 && Format(c) == "#" + s
    ensures TryGetRgb(s) == Some(c)
  {
    FormatParses(c);
    HashesIgnored(s);
  }

  lemma InvalidUnread()
    ensures TryGetRgb("INVALID").None?
  {
    assert LeadingCount("INVALID", x => x == '#') == 0;
    assert |TrimStartChar("INVALID", '#')| == 7;
  }

  /** "#FFF" is read as "FFFFFF". */
  lemma ShortWhite()
    ensures TryGetRgb("#FFF") == Some(Rgb(255, 255, 255))
  {
    assert ExpandShort("FFF") == "FFFFFF";
    WhiteFormat();
    assert "#FFF" == "#" + "FFF";
    ReadsShort("FFF", Rgb(255, 255, 255));
  }

  /** A '#' and three digits read as the colour whose format doubles them. */
  lemma ReadsShort(h: string, c: Rgb)
    requires |h| == 3 && AllHex(h) && InRange(c) && Format(c) == "#" + ExpandShort(h)
    ensures TryGetRgb("#" + h) == Some(c)
  {
    HashesIgnored(h);
    ThreeDigitsDoubled(h);
    ReadsBare(c, ExpandShort(h));
  }

  function Luminance(c: Rgb): real
  {
    0.299 * c.r as real + 0.587 * c.g as real + 0.114 * c.b as real
  }

  /** A readable colour whose luminance is at most half of the scale. */
  predicate IsDark(hex: string)
  {
    TryGetRgb(hex).Some? && Luminance(TryGetRgb(hex).value) <= 128.0
  }

  /** GetSmartHighlightBase: a faint highlight keeps the colour; a strong
      one is black over a bright colour and white over a dark one. An
      unreadable colour gives black. */
  function GetSmartHighlightBase(hexColor: string, opacity: real): (r: string)
    ensures opacity <= 0.5 ==> r == hexColor
    ensures opacity > 0.5 ==> (r == "#FFFFFF" || r == "#000000")
    ensures opacity > 0.5 ==> (r == "#FFFFFF" <==> IsDark(hexColor))
  {
    if opacity <= 0.5 then hexColor
    else match TryGetRgb(hexColor)
      case Some(c) => if Luminance(c) > 128.0 then "#000000" else "#FFFFFF"
      case None => "#000000"
  }

  /** On a grey the luminance is the grey level itself: a strong highlight
      is white exactly for levels up to 128. */
  lemma GreyHighlight(level: int, opacity: real)
    requires 0 <= level < 256 && opacity > 0.5
    ensures GetSmartHighlightBase(Format(Rgb(level, level, level)), opacity) ==
      if level <= 128 then "#FFFFFF" else "#000000"
  {
    FormatParses(Rgb(level, level, level));
    assert Luminance(Rgb(level, level, level)) == level as real;
  }

  lemma HighlightOverBlack()
    ensures GetSmartHighlightBase("#000000", 0.8) == "#FFFFFF"
  {
    BlackReads();
  }

  lemma HighlightOverWhite()
    ensures GetSmartHighlightBase("#FFFFFF", 0.8) == "#000000"
  {
    WhiteReads();
  }

  /** Black and white as Format writes them. */
  lemma BlackReads()
    ensures TryGetRgb("#000000") == Some(Rgb(0, 0, 0))
  {
    BlackFormat();
    ReadsFormatted(Rgb(0, 0, 0), "#000000");
  }

  lemma WhiteReads()
    ensures TryGetRgb("#FFFFFF") == Some(Rgb(255, 255, 255))
  {
    WhiteFormat();
    ReadsFormatted(Rgb(255, 255, 255), "#FFFFFF");
  }

  lemma BlackFormat()
    ensures Format(Rgb(0, 0, 0)) == "#000000"
  {
    assert X2(0) == "00";
  }

  lemma WhiteFormat()
    ensures Format(Rgb(255, 255, 255)) == "#FFFFFF"
  {
    assert X2(255) == "FF";
  }
}
