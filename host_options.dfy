/**
 * The .NET host configuration (HostOptions.cs): option objects with their
 * defaults, the serialization predicates of TextOptions, and the derivation
 * of a subtle colour from a normal one in ColorOption.
 */
module HostOptions {
  import opened Xaml

  datatype Result<+R, +E> = Success(value: R) | Failure(error: E)

  // ---------------------------------------------------------------------------
  // Boundaries
  // ---------------------------------------------------------------------------

  /** Left, top, right and bottom sizes of a padding or margin. */
  class BoundaryOptions {
    var left: Int32
    var top: Int32
    var right: Int32
    var bottom: Int32

    /** The parameterless constructor: every side keeps the default 0. */
    constructor()
      ensures left == 0 && top == 0 && right == 0 && bottom == 0
    {
      left, top, right, bottom := 0, 0, 0, 0;
    }

    /** The same size on every side. */
    constructor Uniform(allMargin: Int32)
      ensures left == allMargin && right == allMargin && top == allMargin && bottom == allMargin
    {
      bottom := allMargin;
      top := bottom;
      right := top;
      left := right;
    }

    /** Each side from its own argument. */
    constructor Sides(left: Int32, top: Int32, right: Int32, bottom: Int32)
      ensures this.left == left && this.top == top && this.right == right && this.bottom == bottom
    {
      this.left := left;
      this.top := top;
      this.right := right;
      this.bottom := bottom;
    }
  }

  // ---------------------------------------------------------------------------
  // Text options and their serialization
  // ---------------------------------------------------------------------------

  datatype TextSize = Small | Normal | Medium | Large | ExtraLarge
  datatype TextWeight = Lighter | Normal | Bolder
  datatype TextColor = Default | Dark | Light | Accent | Good | Warning | Attention

  /** The values of a TextOptions object. */
  datatype TextValues = TextValues(size: TextSize, weight: TextWeight, color: TextColor, isSubtle: bool)

  const DefaultTextValues := TextValues(TextSize.Normal, TextWeight.Normal, TextColor.Default, false)

  /** The JSON object written for a TextOptions object: a property that is not written is None. */
  datatype TextJson = TextJson(
    size: Option<TextSize>,
    weight: Option<TextWeight>,
    color: Option<TextColor>,
    isSubtle: Option<bool>)

  class TextOptions {
    var size: TextSize
    var weight: TextWeight
    var color: TextColor
    var isSubtle: bool

    constructor()
      ensures Values() == DefaultTextValues
    {
      size := TextSize.Normal;
      weight := TextWeight.Normal;
      color := TextColor.Default;
      isSubtle := false;
    }

    function Values(): TextValues
      reads this
    {
      TextValues(size, weight, color, isSubtle)
    }

    /** The size is written exactly when it is not the default size. */
    predicate ShouldSerializeSize(): (b: bool)
      reads this
      ensures b <==> size != DefaultTextValues.size
    {
      size != TextSize.Normal
    }

    /** The color is written exactly when it is not the default color. */
    predicate ShouldSerializeColor(): (b: bool)
      reads this
      ensures b <==> color != DefaultTextValues.color
    {
      color != TextColor.Default
    }

    /** The weight is written exactly when it is not the default weight. */
    predicate ShouldSerializeWeight(): (b: bool)
      reads this
      ensures b <==> weight != DefaultTextValues.weight
    {
      weight != TextWeight.Normal
    }

    /** IsSubtle is written exactly when it is not the default false. */
    predicate ShouldSerializeIsSubtle(): (b: bool)
      reads this
      ensures b <==> isSubtle != DefaultTextValues.isSubtle
    {
      isSubtle
    }

    /** JSON serialization: a property is written, with its value, exactly when its ShouldSerialize predicate holds. */
    function Serialized(): (json: TextJson)
      reads this
      ensures json.size.Some? <==> size != TextSize.Normal
      ensures json.weight.Some? <==> weight != TextWeight.Normal
      ensures json.color.Some? <==> color != TextColor.Default
      ensures json.isSubtle.Some? <==> isSubtle
      ensures json.size.Some? ==> json.size.value == size
      ensures json.weight.Some? ==> json.weight.value == weight
      ensures json.color.Some? ==> json.color.value == color
      ensures json.isSubtle.Some? ==> json.isSubtle.value == isSubtle
    {
      TextJson(
        if ShouldSerializeSize() then Some(size) else None,
        if ShouldSerializeWeight() then Some(weight) else None,
        if ShouldSerializeColor() then Some(color) else None,
        if ShouldSerializeIsSubtle() then Some(isSubtle) else None)
    }
  }

  function OrElse<T>(o: Option<T>, otherwise: T): T
  {
    match o case Some(v) => v case None => otherwise
  }

  /** JSON deserialization: a fresh TextOptions object with the written properties set. */
  function Deserialized(json: TextJson): (t: TextValues)
    ensures json.size.None? ==> t.size == DefaultTextValues.size
    ensures json.weight.None? ==> t.weight == DefaultTextValues.weight
    ensures json.color.None? ==> t.color == DefaultTextValues.color
    ensures json.isSubtle.None? ==> t.isSubtle == DefaultTextValues.isSubtle
  {
    TextValues(
      OrElse(json.size, DefaultTextValues.size),
      OrElse(json.weight, DefaultTextValues.weight),
      OrElse(json.color, DefaultTextValues.color),
      OrElse(json.isSubtle, DefaultTextValues.isSubtle))
  }

  /** Leaving out the properties equal to their defaults loses nothing: reading the JSON back gives the same values. */
  lemma SerializationRoundTrip(t: TextOptions)
    ensures Deserialized(t.Serialized()) == t.Values()
  {
  }

  /** Options serialize no property at all exactly when every value is its default. */
  lemma SerializesNothingIffDefault(t: TextOptions)
    ensures t.Serialized() == TextJson(None, None, None, None) <==> t.Values() == DefaultTextValues
  {
  }

  // ---------------------------------------------------------------------------
  // Colours
  // ---------------------------------------------------------------------------

  /** The exceptions the ColorOption constructor can raise while deriving the subtle colour. */
  datatype ColorError =
    | SubstringOutOfRange   // the normal colour has fewer than three characters
    | NotAHexByte           // Convert.ToByte(..., 16) rejects the two characters

  function HexDigitValue(c: char): Option<int>
  {
    if '0' <= c <= '9' then Some(c as int - '0' as int)
    else if 'a' <= c <= 'f' then Some(c as int - 'a' as int + 10)
    else if 'A' <= c <= 'F' then Some(c as int - 'A' as int + 10)
    else None
  }

  /**
   * Convert.ToByte(s, 16) for a two-character s: an optional '+' sign, an
   * optional "0x" prefix and then hexadecimal digits up to the end of the
   * string; a '-' sign is rejected for an unsigned result.
   */
  function ToByteBase16(s: string): (r: Result<Byte, ColorError>)
    requires |s| == 2
    ensures r.Success? && s[0] != '+' ==>
      HexDigitValue(s[0]).Some? && HexDigitValue(s[1]).Some? &&
      r.value == 16 * HexDigitValue(s[0]).value + HexDigitValue(s[1]).value
    ensures HexDigitValue(s[0]).Some? && HexDigitValue(s[1]).Some? ==> r.Success?
  {
    if s[0] == '+' then
      match HexDigitValue(s[1])
      case Some(d) => Success(d)
      case None => Failure(NotAHexByte)
    else if s[0] == '0' && (s[1] == 'x' || s[1] == 'X') then Failure(NotAHexByte)
    else
      match (HexDigitValue(s[0]), HexDigitValue(s[1]))
      case (Some(h), Some(l)) => Success(16 * h + l)
      case _ => Failure(NotAHexByte)
  }

  /** The mantissa of the double nearest 0.7: 0.7 is stored as PointSevenMantissa / 2^52. */
  const PointSevenMantissa: nat := 3152519739159347
  const TwoTo52: nat := 0x10_0000_0000_0000

  /**
   * The distance between consecutive doubles around x / 2^52, in units of
   * 2^-52, for x below 2^60 (the doubles from 1 to 256).
   */
  function Ulp(x: nat): (p: nat)
    ensures 1 <= p <= 128
  {
    if x < 0x20_0000_0000_0000 then 1
    else if x < 0x40_0000_0000_0000 then 2
    else if x < 0x80_0000_0000_0000 then 4
    else if x < 0x100_0000_0000_0000 then 8
    else if x < 0x200_0000_0000_0000 then 16
    else if x < 0x400_0000_0000_0000 then 32
    else if x < 0x800_0000_0000_0000 then 64
    else 128
  }

  /** x rounded to a multiple of p, to the nearest one and to the even one on a tie. */
  function RoundToNearestEven(x: nat, p: nat): (y: nat)
    requires p >= 1
    ensures x < y + p && y <= x + p
  {
    var q := x / p;
    var rem := x % p;
    if 2 * rem > p || (2 * rem == p && q % 2 == 1) then x - rem + p else x - rem
  }

  /**
   * (byte)(b * .7): the double product of b and the double nearest 0.7,
   * rounded to nearest even, then truncated to a byte. Because that double
   * lies just below 0.7, the byte is 7b/10 rounded down, except that for a
   * multiple of ten it may be one less.
   */
  function ScaleByPointSeven(b: Byte): (r: Byte)
    ensures (7 * b) / 10 - 1 <= r <= (7 * b) / 10
    ensures (7 * b) % 10 != 0 ==> r == (7 * b) / 10
  {
    var x := b * PointSevenMantissa;
    RoundToNearestEven(x, Ulp(x)) / TwoTo52
  }

  /** Scaling examples; for 90 the double product lies just below 63, so the byte is 62. */
  lemma ScaleExamples()
    ensures ScaleByPointSeven(255) == 178
    ensures ScaleByPointSeven(100) == 70
    ensures ScaleByPointSeven(90) == 62
    ensures ScaleByPointSeven(16) == 11
    ensures ScaleByPointSeven(0) == 0
  {
  }

  function LowerHexDigit(d: int): char
    requires 0 <= d < 16
  {
    if d < 10 then ('0' as int + d) as char else ('a' as int + d - 10) as char
  }

  /** byte.ToString("x"): lower-case hexadecimal without leading zeros. */
  function HexAsWritten(b: Byte): (s: string)
    ensures |s| == if b < 16 then 1 else 2
  {
    if b < 16 then [LowerHexDigit(b)] else [LowerHexDigit(b / 16), LowerHexDigit(b % 16)]
  }

  /** byte.ToString("x2"): lower-case hexadecimal, always two digits. */
  function Hex2(b: Byte): (s: string)
    ensures |s| == 2
  {
    [LowerHexDigit(b / 16), LowerHexDigit(b % 16)]
  }

  lemma LowerHexDigitValue(d: int)
    requires 0 <= d < 16
    ensures HexDigitValue(LowerHexDigit(d)) == Some(d)
  {
  }

  /** Two-digit formatting and Convert.ToByte(..., 16) are inverse. */
  lemma {:induction false} Hex2RoundTrip(b: Byte)
    ensures ToByteBase16(Hex2(b)) == Success(b)
  {
    LowerHexDigitValue(b / 16);
    LowerHexDigitValue(b % 16);
  }

  /**
   * The subtle colour the constructor derives, as written: its opacity byte
   * is formatted without padding, so the colour is one character shorter
   * when the scaled byte is below 16.
   */
  function DeriveSubtleAsWritten(normal: string): (r: Result<string, ColorError>)
    ensures r.Success? <==> |normal| >= 3 && ToByteBase16(normal[1..3]).Success?
    ensures |normal| < 3 ==> r == Failure(SubstringOutOfRange)
    ensures r.Success? ==>
      var opacity := ScaleByPointSeven(ToByteBase16(normal[1..3]).value);
      |r.value| == |normal| - (if opacity < 16 then 1 else 0) && r.value[0] == '#' &&
      r.value[|r.value| - (|normal| - 3)..] == normal[3..]
  {
    if |normal| < 3 then Failure(SubstringOutOfRange)
    else
      match ToByteBase16(normal[1..3])
      case Failure(e) => Failure(e)
      case Success(alpha) => Success("#" + HexAsWritten(ScaleByPointSeven(alpha)) + normal[3..])
  }

  /**
   * A normal colour whose alpha byte scales below 16 loses a digit of its
   * subtle colour: "#10FFFFFF" (alpha 16, scaled 11) gives "#bFFFFFF", whose
   * alpha now reads as 0xbF and whose colour part is shifted by one digit.
   */
  lemma UnpaddedOpacityDropsDigit()
    ensures DeriveSubtleAsWritten("#10FFFFFF") == Success("#bFFFFFF")
    ensures |"#bFFFFFF"| == |"#10FFFFFF"| - 1
  {
    var normal := "#10FFFFFF";
    assert normal[1..3] == "10" && normal[3..] == "FFFFFF";
    assert ToByteBase16("10") == Success(16);
    ScaleExamples();
    assert HexAsWritten(11) == "b";
    assert "#" + "b" + "FFFFFF" == "#bFFFFFF";
  }

  /**
   * The subtle colour derived from a normal colour "#AARRGGBB": the alpha
   * byte scaled by 0.7 in two hex digits, followed by the rest of the normal
   * colour unchanged.
   */
  function DeriveSubtle(normal: string): (r: Result<string, ColorError>)
    ensures r.Success? <==> |normal| >= 3 && ToByteBase16(normal[1..3]).Success?
    ensures |normal| < 3 ==> r == Failure(SubstringOutOfRange)
    ensures r.Success? ==>
      |r.value| == |normal| && r.value[0] == '#' && r.value[3..] == normal[3..] &&
      ToByteBase16(r.value[1..3]) == Success(ScaleByPointSeven(ToByteBase16(normal[1..3]).value))
  {
    if |normal| < 3 then Failure(SubstringOutOfRange)
    else
      match ToByteBase16(normal[1..3])
      case Failure(e) => Failure(e)
      case Success(alpha) =>
        var opacity := ScaleByPointSeven(alpha);
        var subtle := "#" + Hex2(opacity) + normal[3..];
        Hex2RoundTrip(opacity);
        assert subtle[1..3] == Hex2(opacity);
        Success(subtle)
  }

  /**
   * The derivation as written agrees with the corrected one exactly when it
   * fails or the scaled opacity byte has two hexadecimal digits.
   */
  lemma AsWrittenAgreesUnlessOpacityBelowSixteen(normal: string)
    ensures DeriveSubtleAsWritten(normal) == DeriveSubtle(normal) <==>
      DeriveSubtle(normal).Failure? || ScaleByPointSeven(ToByteBase16(normal[1..3]).value) >= 16
  {
    if DeriveSubtle(normal).Success? {
      var opacity := ScaleByPointSeven(ToByteBase16(normal[1..3]).value);
      if opacity >= 16 {
        assert HexAsWritten(opacity) == Hex2(opacity);
      } else {
        assert |DeriveSubtleAsWritten(normal).value| != |DeriveSubtle(normal).value|;
      }
    }
  }

  /** A colour and its subtle variant. */
  class ColorOption {
    var normal: string
    var subtle: string

    constructor(normal: string, subtle: string)
      ensures this.normal == normal && this.subtle == subtle
    {
      this.normal := normal;
      this.subtle := subtle;
    }

    /**
     * The ColorOption constructor with its optional subtle colour: given, it is
     * kept verbatim; missing, it is derived, and the construction fails when
     * the derivation throws.
     */
    static method Create(normal: string, subtle: Option<string>) returns (r: Result<ColorOption, ColorError>)
      ensures subtle.Some? ==> r.Success? && fresh(r.value) && r.value.normal == normal && r.value.subtle == subtle.value
      ensures subtle.None? ==> match DeriveSubtle(normal)
        case Success(s) => r.Success? && fresh(r.value) && r.value.normal == normal && r.value.subtle == s
        case Failure(e) => r == Failure(e)
    {
      match subtle {
        case Some(s) =>
          var option := new ColorOption(normal, s);
          r := Success(option);
        case None =>
          match DeriveSubtle(normal) {
            case Success(s) =>
              var option := new ColorOption(normal, s);
              r := Success(option);
            case Failure(e) =>
              r := Failure(e);
          }
      }
    }
  }

  /** An opaque normal colour, alpha 0xFF, has subtle alpha 0xb2. */
  lemma DeriveFromOpaque(rgb: string)
    ensures DeriveSubtle("#FF" + rgb) == Success("#b2" + rgb)
  {
    var normal := "#FF" + rgb;
    assert normal[1..3] == "FF" && normal[3..] == rgb;
    assert ToByteBase16("FF") == Success(255);
    ScaleExamples();
    assert Hex2(178) == "b2";
    assert "#" + Hex2(ScaleByPointSeven(255)) + normal[3..] == "#b2" + rgb;
  }

  /** new ColorOption("#FF" + rgb): an opaque colour, whose subtle variant has alpha 0xb2. */
  method OpaqueColor(rgb: string) returns (option: ColorOption)
    ensures fresh(option) && IsOpaqueColor(option, rgb)
  {
    DeriveFromOpaque(rgb);
    var r := ColorOption.Create("#FF" + rgb, None);
    option := r.value;
  }

  /** The colour is the opaque "#FF" + rgb, and its subtle variant has alpha 0xb2. */
  predicate IsOpaqueColor(option: ColorOption, rgb: string)
    reads option
  {
    option.normal == "#FF" + rgb && option.subtle == "#b2" + rgb
  }

  /** The colours of the configuration, each with its derived subtle variant. */
  class ColorOptions {
    var defaultColor: ColorOption
    var accent: ColorOption
    var dark: ColorOption
    var light: ColorOption
    var good: ColorOption
    var warning: ColorOption
    var attention: ColorOption

    constructor()
      ensures IsOpaqueColor(defaultColor, "000000")
      ensures IsOpaqueColor(accent, "0000FF")
      ensures IsOpaqueColor(dark, "101010")
      ensures IsOpaqueColor(light, "FFFFFF")
      ensures IsOpaqueColor(good, "008000")
      ensures IsOpaqueColor(warning, "FFD700")
      ensures IsOpaqueColor(attention, "8B0000")
    {
      var defaultColorOption := OpaqueColor("000000");
      defaultColor := defaultColorOption;
      var accentOption := OpaqueColor("0000FF");
      accent := accentOption;
      var darkOption := OpaqueColor("101010");
      dark := darkOption;
      var lightOption := OpaqueColor("FFFFFF");
      light := lightOption;
      var goodOption := OpaqueColor("008000");
      good := goodOption;
      var warningOption := OpaqueColor("FFD700");
      warning := warningOption;
      var attentionOption := OpaqueColor("8B0000");
      attention := attentionOption;
    }
  }

  // ---------------------------------------------------------------------------
  // The remaining option objects and their defaults
  // ---------------------------------------------------------------------------

  class AdaptiveCardOptions {
    var padding: BoundaryOptions
    var backgroundColor: string

    constructor()
      ensures fresh(padding)
      ensures padding.left == 8 && padding.top == 8 && padding.right == 8 && padding.bottom == 8
      ensures backgroundColor == "#FFFFFF"
    {
      padding := new BoundaryOptions.Uniform(8);
      backgroundColor := "#FFFFFF";
    }
  }

  class SeparationOption {
    var spacing: Int32
    var lineThickness: Int32
    /** None stands for a null line colour. */
    var lineColor: Option<string>

    constructor(spacing: Int32, lineThickness: Int32, lineColor: Option<string>)
      ensures this.spacing == spacing && this.lineThickness == lineThickness && this.lineColor == lineColor
    {
      this.spacing := spacing;
      this.lineThickness := lineThickness;
      this.lineColor := lineColor;
    }
  }

  class SeparationOptions {
    var defaultSeparation: SeparationOption
    var strong: SeparationOption

    constructor()
      ensures defaultSeparation.spacing == 10 && defaultSeparation.lineThickness == 0 && defaultSeparation.lineColor == None
      ensures strong.spacing == 20 && strong.lineThickness == 1 && strong.lineColor == Some("#FF707070")
    {
      defaultSeparation := new SeparationOption(10, 0, None);
      strong := new SeparationOption(20, 1, Some("#FF707070"));
    }
  }

  class FontSizeOptions {
    var small: Int32
    var normal: Int32
    var medium: Int32
    var large: Int32
    var extraLarge: Int32

    constructor()
      ensures small == 10 && normal == 12 && medium == 14 && large == 17 && extraLarge == 20
    {
      small, normal, medium, large, extraLarge := 10, 12, 14, 17, 20;
    }
  }

  class ImageSizeOptions {
    var small: Int32
    var medium: Int32
    var large: Int32

    constructor()
      ensures small == 60 && medium == 120 && large == 180
    {
      small, medium, large := 60, 120, 180;
    }
  }

  datatype ImageSize = Auto | Stretch | Small | Medium | Large

  class ImageSetOptions {
    var imageSize: ImageSize

    constructor()
      ensures imageSize == ImageSize.Medium
    {
      imageSize := ImageSize.Medium;
    }
  }

  datatype ShowCardActionMode = Inline | Popup

  class ShowCardOptions {
    var actionMode: ShowCardActionMode
    var backgroundColor: string
    var autoPadding: bool

    constructor()
      ensures actionMode == Inline && backgroundColor == "#FFF8F8F8" && autoPadding
    {
      actionMode := Inline;
      backgroundColor := "#FFF8F8F8";
      autoPadding := true;
    }
  }

  /** AdaptiveCards.HorizontalAlignment. */
  datatype Alignment = Left | Center | Right

  class ActionOptions {
    var showCard: ShowCardOptions
    var actionsOrientation: Orientation
    var actionAlignment: Alignment
    var backgroundColor: string
    var borderColor: string
    var textColor: string
    var borderThickness: Int32
    var fontWeight: Int32
    var fontSize: Int32
    var spacing: Int32
    var padding: BoundaryOptions

    constructor()
      ensures fresh(showCard) && fresh(padding)
      ensures showCard.actionMode == Inline
      ensures actionsOrientation == Horizontal && actionAlignment == Center
      ensures backgroundColor == "#FF5098FF" && borderColor == "#FF000000" && textColor == "#FFFFFFFF"
      ensures borderThickness == 1 && fontWeight == 400 && fontSize == 12 && spacing == 8
      ensures padding.left == 4 && padding.top == 4 && padding.right == 4 && padding.bottom == 4
    {
      showCard := new ShowCardOptions();
      actionsOrientation := Horizontal;
      actionAlignment := Center;
      backgroundColor := "#FF5098FF";
      borderColor := "#FF000000";
      textColor := "#FFFFFFFF";
      borderThickness := 1;
      fontWeight := 400;
      fontSize := 12;
      spacing := 8;
      padding := new BoundaryOptions.Uniform(4);
    }
  }

  class FactSetOptions {
    var title: TextOptions
    var value: TextOptions
    var spacing: Int32

    constructor()
      ensures fresh(title) && fresh(value) && title != value
      ensures title.Values() == TextValues(TextSize.Normal, TextWeight.Bolder, TextColor.Default, false)
      ensures title.Serialized() == TextJson(None, Some(TextWeight.Bolder), None, None)
      ensures value.Values() == DefaultTextValues
      ensures spacing == 20
    {
      var t := new TextOptions();
      t.size := TextSize.Normal;
      t.color := TextColor.Default;
      t.isSubtle := false;
      t.weight := TextWeight.Bolder;
      title := t;
      value := new TextOptions();
      spacing := 20;
    }
  }

  class ColumnOptions {
    var separation: SeparationOptions

    constructor()
      ensures fresh(separation)
      ensures separation.defaultSeparation.spacing == 10 && separation.defaultSeparation.lineThickness == 0
      ensures separation.defaultSeparation.lineColor == None
      ensures separation.strong.spacing == 20 && separation.strong.lineThickness == 1
      ensures separation.strong.lineColor == Some("#FF707070")
    {
      separation := new SeparationOptions();
    }
  }

  /** The type strings of the actions the host supports by default. */
  const DefaultSupportedActionTypes: seq<string> := ["Action.OpenUrl", "Action.Submit", "Action.Http", "Action.ShowCard"]

  class HostOptions {
    var fontFamily: string
    var fontSizes: FontSizeOptions
    var supportsInteractivity: bool
    var supportedActionTypes: seq<string>
    var imageSizes: ImageSizeOptions
    var maxActions: Int32
    var separation: SeparationOptions
    var adaptiveCard: AdaptiveCardOptions
    var colors: ColorOptions
    var imageSet: ImageSetOptions
    var factSet: FactSetOptions
    var column: ColumnOptions
    var actions: ActionOptions

    constructor()
      ensures fontFamily == "Calibri" && supportsInteractivity && maxActions == 5
      ensures supportedActionTypes == DefaultSupportedActionTypes
    {
      fontFamily := "Calibri";
      fontSizes := new FontSizeOptions();
      supportsInteractivity := true;
      supportedActionTypes := DefaultSupportedActionTypes;
      imageSizes := new ImageSizeOptions();
      maxActions := 5;
      separation := new SeparationOptions();
      adaptiveCard := new AdaptiveCardOptions();
      colors := new ColorOptions();
      imageSet := new ImageSetOptions();
      factSet := new FactSetOptions();
      column := new ColumnOptions();
      actions := new ActionOptions();
    }
  }
}
