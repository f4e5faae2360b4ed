/**
 * The calendar image: planet lookup tables, the text-centring rule, the
 * planetary-hour length, the moon-phase bucket, the weather-icon crop and
 * the fixed quarter-cell layout of the 600x448 canvas.
 *
 * Python floats are modelled as exact `real`s. `int(x)` on a float truncates
 * toward zero (`Trunc`), and `//` on floats floors.
 */
module Calendar {
  import opened Wrappers

  /** A classical planet: its name, its letter in the astrological symbol font, and two colour names. */
  datatype Planet = Planet(name: string, letter: char, bgColor: string, fgColor: string)

  const Lunar: Planet := Planet("Moon", 'R', "violet", "white")
  const Mars: Planet := Planet("Mars", 'U', "red", "white")
  const Mercury: Planet := Planet("Mercury", 'S', "orange", "white")
  const Jupiter: Planet := Planet("Jupiter", 'V', "blue", "white")
  const Venus: Planet := Planet("Venus", 'T', "green", "white")
  const Saturn: Planet := Planet("Saturn", 'W', "black", "white")
  const Solar: Planet := Planet("Sun", 'Q', "yellow", "white")

  /** Rulers of the days, indexed by weekday with Monday = 0. */
  const DayRulers: seq<Planet> := [Lunar, Mars, Mercury, Jupiter, Venus, Saturn, Solar]
  /** Rulers of the planetary hours, in the traditional descending order. */
  const HourRulers: seq<Planet> := [Saturn, Jupiter, Mars, Solar, Venus, Mercury, Lunar]

  const Width: int := 600
  const Height: int := 448

  /** The layout cells: a quarter of the canvas height and width, and half its width. */
  const QuarterHeight: real := Height as real * 0.25
  const QuarterWidth: real := Width as real * 0.25
  const HalfWidth: real := Width as real / 2.0

  const TextFont: string := "NotoSans-VariableFont_wdth,wght.ttf"
  const AstroFont: string := "Astronomicon.ttf"

  /** The suffix appended to the temperature, as the characters written in the source ("Â°"). */
  const DegreeSuffix: string := ['Â', '°']

  /** A weekday number as `datetime.weekday()` returns it: Monday = 0 .. Sunday = 6. */
  type Weekday = d: int | 0 <= d < 7

  /** The day ruler is looked up by weekday alone. */
  function DayRuler(weekday: Weekday): (p: Planet)
    ensures p.name == ["Moon", "Mars", "Mercury", "Jupiter", "Venus", "Saturn", "Sun"][weekday]
    ensures p.letter == "RUSVTWQ"[weekday]
    ensures p in HourRulers
  {
    DayRulers[weekday]
  }

  /** The day-ruler letters, Monday first. */
  lemma DayRulerLetters()
    ensures |DayRulers| == 7
    ensures forall d :: 0 <= d < 7 ==> DayRulers[d].letter == "RUSVTWQ"[d]
  {
  }

  /**
   * Both ruler tables list the same seven planets, each exactly once: the
   * hour table is the day table read in the order 5, 3, 1, 6, 4, 2, 0.
   */
  lemma RulerTablesArePermutations()
    ensures |DayRulers| == |HourRulers| == 7
    ensures forall i :: 0 <= i < 7 ==> HourRulers[i] == DayRulers[[5, 3, 1, 6, 4, 2, 0][i]]
    ensures forall i, j :: 0 <= i < j < 7 ==> DayRulers[i] != DayRulers[j]
    ensures forall i, j :: 0 <= i < j < 7 ==> HourRulers[i] != HourRulers[j]
  {
    DayRulerLetters();
    forall i, j | 0 <= i < j < 7
      ensures DayRulers[i] != DayRulers[j]
    {
      assert "RUSVTWQ"[i] != "RUSVTWQ"[j];
    }
  }

  // ---------------------------------------------------------------------
  // Numeric helpers for Python's int() and float arithmetic

  /** Python's `int(x)` on a float: truncation toward zero. */
  function Trunc(x: real): (n: int)
    ensures x >= 0.0 ==> n as real <= x < n as real + 1.0
    ensures x <= 0.0 ==> n as real - 1.0 < x <= n as real
  {
    if x >= 0.0 then x.Floor else -((-x).Floor)
  }

  /** Python's `x % 12` on floats: the remainder takes the sign of the modulus. */
  function FloatMod12(x: real): (r: real)
    ensures 0.0 <= r < 12.0
    ensures 0.0 <= x < 12.0 ==> r == x
  {
    x - 12.0 * (x / 12.0).Floor as real
  }

  // ---------------------------------------------------------------------
  // Text centring

  /** A text bounding box as measured by the drawing library: left, top, right, bottom. */
  datatype BBox = BBox(left: real, top: real, right: real, bottom: real) {
    function Width(): real { right - left }
    function Height(): real { bottom - top }
  }

  datatype Point = Point(x: real, y: real)

  /**
   * The origin at which text whose measured box is `box` is drawn so that it
   * sits centred in the rectangle (x1, y1)-(x2, y2), taking only its width and
   * height into account.
   */
  function CenterGlyph(x1: real, y1: real, x2: real, y2: real, box: BBox): (p: Point)
    ensures p.x - x1 == x2 - (p.x + box.Width())
    ensures p.y - y1 == y2 - (p.y + box.Height())
    ensures box.Width() <= x2 - x1 ==> x1 <= p.x <= x2 - box.Width()
    ensures box.Height() <= y2 - y1 ==> y1 <= p.y <= y2 - box.Height()
  {
    var textWidth := box.right - box.left;
    var textHeight := box.bottom - box.top;
    Point(x1 + (x2 - x1 - textWidth) / 2.0, y1 + (y2 - y1 - textHeight) / 2.0)
  }

  /**
   * The origin places a box of the measured width and height centred in the
   * rectangle; the text's actual ink box, offset by the measured box's own
   * left and top, is drawn `2 * left` further right and `2 * top` further
   * down than centred.
   */
  lemma CenterGlyphInkOffset(x1: real, y1: real, x2: real, y2: real, box: BBox)
    ensures var p := CenterGlyph(x1, y1, x2, y2, box);
      ((p.x + box.left) - x1) - (x2 - (p.x + box.right)) == 2.0 * box.left &&
      ((p.y + box.top) - y1) - (y2 - (p.y + box.bottom)) == 2.0 * box.top
  {
  }

  /** A font file at a point size. */
  datatype Font = Font(file: string, size: int)

  /** One `draw.text` call: the origin, the text, the font. */
  datatype TextDraw = TextDraw(at: Point, text: string, font: Font)

  /**
   * draw_glyph: draws `glyph` so that the text `center` (the glyph itself when
   * no `center` is given) is centred, by its measured width and height, in
   * the cell of size quarterW x quarterH whose top-left corner is (boxX, boxY).
   * `measure` is the font's text bounding box.
   */
  function DrawGlyph(boxX: real, boxY: real, quarterW: real, quarterH: real, glyph: string, font: Font,
                     center: Option<string>, measure: (string, Font) -> BBox): (d: TextDraw)
    ensures d.text == glyph && d.font == font
    ensures var m := measure(if center.Some? then center.value else glyph, font);
      d.at.x - boxX == (boxX + quarterW) - (d.at.x + m.Width()) &&
      d.at.y - boxY == (boxY + quarterH) - (d.at.y + m.Height())
  {
    var centered := center.GetOr(glyph);
    var at := CenterGlyph(boxX, boxY, boxX + quarterW, boxY + quarterH, measure(centered, font));
    TextDraw(at, glyph, font)
  }

  // ---------------------------------------------------------------------
  // Weather icon

  /** A crop box in whole pixels: left, top, right, bottom. */
  datatype CropBox = CropBox(left: int, top: int, right: int, bottom: int)

  /** The crop of the icon, the crop of its alpha mask, and the paste position. */
  datatype IconPaste = IconPaste(crop: CropBox, maskCrop: CropBox, x: int, y: int)

  /** The side of the square cut out of the weather icon. */
  const IconSide: int := 100

  /** The start of a centred 100-pixel span within `size` pixels, as `int((size - 100) / 2)`. */
  function CropStart(size: int): (s: int)
    ensures size >= IconSide ==> 0 <= s && s + IconSide <= size && 0 <= (size - (s + IconSide)) - s <= 1
  {
    Trunc((size - IconSide) as real / 2.0)
  }

  /** The end of the same span, as `int((size + 100) / 2)`. */
  function CropEnd(size: int): (e: int)
    ensures size >= IconSide ==> e == CropStart(size) + IconSide
  {
    Trunc((size + IconSide) as real / 2.0)
  }

  /**
   * The paste coordinate `int(box + (quarter - 100) // 2)` of the 100-pixel
   * icon along one axis of a cell that starts at `box` and spans `quarter`.
   */
  function PasteStart(box: real, quarter: real): (s: int)
    ensures box >= 0.0 && quarter >= 100.0 ==> box - 1.0 < s as real && s as real + 100.0 <= box + quarter
    ensures box == box.Floor as real && box >= 0.0 && quarter >= 100.0 ==>
      0.0 <= (box + quarter - (s as real + 100.0)) - (s as real - box) < 2.0
  {
    var m := ((quarter - 100.0) / 2.0).Floor;
    assert quarter >= 100.0 ==> m >= 0 && m as real <= (quarter - 100.0) / 2.0 < m as real + 1.0;
    assert box == box.Floor as real && box >= 0.0 && quarter >= 100.0 ==> Trunc(box + m as real) == box.Floor + m;
    Trunc(box + m as real)
  }

  /**
   * draw_weather_icon: the central 100x100 crop of an icon of size
   * iconW x iconH, the same crop for its alpha mask, and the paste position
   * `box + (quarter - 100) // 2` in a cell of size quarterW x quarterH.
   */
  function DrawWeatherIcon(boxX: real, boxY: real, quarterW: real, quarterH: real, iconW: nat, iconH: nat): (p: IconPaste)
    ensures p.maskCrop == p.crop
    ensures iconW >= IconSide ==> p.crop.right - p.crop.left == IconSide && 0 <= p.crop.left && p.crop.right <= iconW
    ensures iconH >= IconSide ==> p.crop.bottom - p.crop.top == IconSide && 0 <= p.crop.top && p.crop.bottom <= iconH
    ensures iconW >= IconSide ==> 0 <= (iconW - p.crop.right) - p.crop.left <= 1
    ensures iconH >= IconSide ==> 0 <= (iconH - p.crop.bottom) - p.crop.top <= 1
    ensures p.x == PasteStart(boxX, quarterW) && p.y == PasteStart(boxY, quarterH)
  {
    var box := CropBox(CropStart(iconW), CropStart(iconH), CropEnd(iconW), CropEnd(iconH));
    IconPaste(box, box, PasteStart(boxX, quarterW), PasteStart(boxY, quarterH))
  }

  /** For an icon narrower than 100 pixels with an odd width, truncation toward zero makes the crop 99 wide. */
  lemma NarrowOddIconCrop(size: int)
    requires 0 <= size < IconSide && size % 2 == 1
    ensures CropEnd(size) - CropStart(size) == IconSide - 1
  {
    var k := size / 2;
    assert size == 2 * k + 1;
    assert (size - IconSide) as real / 2.0 == (k - 50) as real + 0.5;
    assert (size + IconSide) as real / 2.0 == (k + 50) as real + 0.5;
    assert CropStart(size) == k - 49;
    assert CropEnd(size) == k + 50;
  }

  // ---------------------------------------------------------------------
  // Planetary hour and moon phase

  /**
   * find_hour_length: one twelfth of the span from `start` to `end`
   * (seconds), truncated toward zero to whole seconds.
   */
  function FindHourLength(end: real, start: real): (length: int)
    ensures end - start >= 0.0 ==> 12.0 * length as real <= end - start < 12.0 * length as real + 12.0
    ensures end - start <= 0.0 ==> 12.0 * length as real - 12.0 < end - start <= 12.0 * length as real
  {
    var elapsed := end - start;
    Trunc(elapsed / 12.0)
  }

  /** For a whole, non-negative number of seconds the hour length is the integer quotient by 12. */
  lemma HourLengthOfWholeSeconds(sunrise: int, sunset: int)
    requires sunrise <= sunset
    ensures FindHourLength(sunset as real, sunrise as real) == (sunset - sunrise) / 12
  {
    var e := sunset - sunrise;
    var l := FindHourLength(sunset as real, sunrise as real);
    assert 12 * l <= e < 12 * l + 12 by {
      assert 12.0 * l as real <= e as real < 12.0 * l as real + 12.0;
    }
  }

  /** The moon icon number, `int(phase * 12 % 12)`. */
  function MoonIndex(phase: real): (k: int)
    ensures 0 <= k < 12
    ensures k == (12.0 * phase).Floor % 12
  {
    var x := phase * 12.0;
    var f := (x / 12.0).Floor;
    var a := x.Floor;
    assert x - 12.0 * f as real == (a - 12 * f) as real + (x - a as real);
    assert 0 <= a - 12 * f < 12 by {
      assert 12.0 * f as real <= x < 12.0 * f as real + 12.0;
    }
    assert a == 12 * f + (a - 12 * f);
    Trunc(FloatMod12(x))
  }

  /** Each twelfth of the lunar cycle is one bucket: phase in [k/12, (k+1)/12) gives icon k, and only then. */
  lemma MoonBuckets(phase: real, k: int)
    requires 0.0 <= phase < 1.0 && 0 <= k < 12
    ensures MoonIndex(phase) == k <==> k as real / 12.0 <= phase < (k + 1) as real / 12.0
  {
  }

  /** A later phase within the cycle never gives an earlier icon. */
  lemma MoonIndexMonotone(p: real, q: real)
    requires 0.0 <= p <= q < 1.0
    ensures MoonIndex(p) <= MoonIndex(q)
  {
    assert 12.0 * p <= 12.0 * q;
  }

  /** The decimal spelling of a small number. */
  function Decimal(n: nat): (s: string)
    ensures |s| >= 1
    ensures n < 10 ==> s == [('0' as int + n) as char]
    ensures 10 <= n < 100 ==> s == [('0' as int + n / 10) as char, ('0' as int + n % 10) as char]
    decreases n
  {
    var digit := [('0' as int + n % 10) as char];
    if n < 10 then digit else Decimal(n / 10) + digit
  }

  /** The moon icon file for bucket k. */
  function MoonFile(k: int): (path: string)
    requires 0 <= k < 12
    ensures |path| == 15 + |Decimal(k)|
    ensures path[..11] == "moon_icons/" && path[|path| - 4..] == ".png"
    ensures path[11..|path| - 4] == Decimal(k)
  {
    "moon_icons/" + Decimal(k) + ".png"
  }

  /** Distinct buckets load distinct icon files. */
  lemma MoonFilesDistinct(i: int, j: int)
    requires 0 <= i < 12 && 0 <= j < 12 && i != j
    ensures MoonFile(i) != MoonFile(j)
  {
    assert Decimal(i) != Decimal(j) by {
      if i < 10 && j < 10 {
        assert Decimal(i)[0] != Decimal(j)[0];
      } else if 10 <= i && 10 <= j {
        assert Decimal(i)[1] != Decimal(j)[1];
      } else {
        assert |Decimal(i)| != |Decimal(j)|;
      }
    }
    assert MoonFile(i)[11..|MoonFile(i)| - 4] != MoonFile(j)[11..|MoonFile(j)| - 4];
  }

  // ---------------------------------------------------------------------
  // The composed calendar

  /** What the calendar needs from the weather service (the icon by its pixel size). */
  datatype Weather = Weather(iconWidth: nat, iconHeight: nat, temp: string, sunrise: real, sunset: real, moonPhase: real)

  /** The weather snapshot plus the current weekday and the formatted date and local sunrise/sunset times. */
  datatype CalInputs = CalInputs(weather: Weather, weekday: Weekday, dateText: string, sunriseText: string, sunsetText: string)

  /** A `draw_glyph` call: the cell, the text, the font and the optional centring text. */
  datatype GlyphRequest = GlyphRequest(boxX: real, boxY: real, boxW: real, boxH: real, glyph: string, font: Font, center: Option<string>)

  /** The calendar as composed on a white canvas: the moon icon paste, the weather icon paste, the hour length and the glyph draws. */
  datatype CalImage = CalImage(width: int, height: int, moonIndex: int, moonFile: string, moonX: int, moonY: int,
                               icon: IconPaste, hourLength: int, glyphs: seq<GlyphRequest>)

  /** get_cal_image, with the weather data, the clock and the text formatting given. */
  function GetCalImage(inputs: CalInputs): (img: CalImage)
    ensures img.width == 600 && img.height == 448
    ensures 0 <= img.moonIndex < 12 && img.moonFile == MoonFile(img.moonIndex)
    ensures img.moonIndex == MoonIndex(inputs.weather.moonPhase)
    ensures img.moonX == 150 && img.moonY == 112
    ensures img.icon.x == 25 && img.icon.y == 118 && img.icon.maskCrop == img.icon.crop
    ensures inputs.weather.iconWidth >= 100 ==> img.icon.crop.right - img.icon.crop.left == 100
    ensures inputs.weather.iconHeight >= 100 ==> img.icon.crop.bottom - img.icon.crop.top == 100
    ensures var c, w := img.icon.crop, inputs.weather.iconWidth;
      w >= 100 ==> 0 <= c.left && c.right <= w && 0 <= (w - c.right) - c.left <= 1
    ensures var c, h := img.icon.crop, inputs.weather.iconHeight;
      h >= 100 ==> 0 <= c.top && c.bottom <= h && 0 <= (h - c.bottom) - c.top <= 1
    ensures |img.glyphs| == 6
    ensures img.glyphs[0].glyph == [DayRulers[inputs.weekday].letter] && img.glyphs[0].font == Font(AstroFont, 100)
    ensures img.glyphs[1].glyph == [Saturn.letter] && img.glyphs[1].font == Font(AstroFont, 100)
    ensures img.glyphs[2].glyph == inputs.weather.temp + DegreeSuffix
    ensures img.glyphs[3].glyph == inputs.dateText
    ensures img.glyphs[4].glyph == inputs.sunriseText && img.glyphs[5].glyph == inputs.sunsetText
    ensures forall k :: 2 <= k < 6 ==> img.glyphs[k].font == Font(TextFont, 60)
    ensures forall k :: 0 <= k < 6 ==> img.glyphs[k].center.None? && img.glyphs[k].boxH == 112.0
    ensures img.hourLength == FindHourLength(inputs.weather.sunset, inputs.weather.sunrise)
  {
    var w := inputs.weather;
    var dayRuler := DayRuler(inputs.weekday);
    var hourLength := FindHourLength(w.sunset, w.sunrise);
    var weatherBoxX, weatherBoxY := 0.0, QuarterHeight;
    var dayRulerBoxX, dayRulerBoxY := 0.0, QuarterHeight * 2.0;
    var hourRulerBoxX, hourRulerBoxY := QuarterWidth, QuarterHeight * 2.0;
    var moonIndex := MoonIndex(w.moonPhase);
    var icon := DrawWeatherIcon(weatherBoxX, weatherBoxY, QuarterWidth, QuarterHeight, w.iconWidth, w.iconHeight);
    var astro := Font(AstroFont, 100);
    var text := Font(TextFont, 60);
    var glyphs := [
      GlyphRequest(dayRulerBoxX, dayRulerBoxY, QuarterWidth, QuarterHeight, [dayRuler.letter], astro, None),
      GlyphRequest(hourRulerBoxX, hourRulerBoxY, QuarterWidth, QuarterHeight, [Saturn.letter], astro, None),
      GlyphRequest(HalfWidth - 25.0, 0.0, HalfWidth, QuarterHeight, w.temp + DegreeSuffix, text, None),
      GlyphRequest(HalfWidth - 25.0, weatherBoxY - 15.0, HalfWidth, QuarterHeight, inputs.dateText, text, None),
      GlyphRequest(HalfWidth - 25.0, hourRulerBoxY - 25.0, HalfWidth, QuarterHeight, inputs.sunriseText, text, None),
      GlyphRequest(HalfWidth - 25.0, QuarterHeight * 3.0 - 25.0, HalfWidth, QuarterHeight, inputs.sunsetText, text, None)
    ];
    CalImage(Width, Height, moonIndex, MoonFile(moonIndex), Trunc(QuarterWidth), Trunc(weatherBoxY), icon, hourLength, glyphs)
  }

  /**
   * The cells the glyphs are centred in: the day and hour rulers in the two
   * quarter cells of the third band, the four texts in half-width cells that
   * start 25 pixels left of the middle.
   */
  lemma CalendarCells(inputs: CalInputs)
    ensures var g := GetCalImage(inputs).glyphs;
      (g[0].boxX, g[0].boxY, g[0].boxW) == (0.0, 224.0, 150.0) &&
      (g[1].boxX, g[1].boxY, g[1].boxW) == (150.0, 224.0, 150.0) &&
      (g[2].boxX, g[2].boxY, g[2].boxW) == (275.0, 0.0, 300.0) &&
      (g[3].boxX, g[3].boxY, g[3].boxW) == (275.0, 97.0, 300.0) &&
      (g[4].boxX, g[4].boxY, g[4].boxW) == (275.0, 199.0, 300.0) &&
      (g[5].boxX, g[5].boxY, g[5].boxW) == (275.0, 311.0, 300.0)
  {
  }

  /** The hour-ruler glyph is Saturn's whatever the sunrise and sunset, hence whatever the hour length. */
  lemma HourGlyphIgnoresDaylight(a: CalInputs, b: CalInputs)
    requires a.weekday == b.weekday && a.dateText == b.dateText
    requires a.sunriseText == b.sunriseText && a.sunsetText == b.sunsetText && a.weather.temp == b.weather.temp
    ensures GetCalImage(a).glyphs == GetCalImage(b).glyphs
    ensures GetCalImage(a).glyphs[1].glyph == "W"
  {
  }

  /** The glyph draws of a composed calendar, each `draw_glyph` request carried out with the font metrics `measure`. */
  function CalendarDraws(img: CalImage, measure: (string, Font) -> BBox): (draws: seq<TextDraw>)
    ensures |draws| == |img.glyphs|
    ensures forall k :: 0 <= k < |draws| ==>
      var g := img.glyphs[k];
      var m := measure(g.center.GetOr(g.glyph), g.font);
      draws[k].text == g.glyph && draws[k].font == g.font &&
      draws[k].at.x - g.boxX == (g.boxX + g.boxW) - (draws[k].at.x + m.Width()) &&
      draws[k].at.y - g.boxY == (g.boxY + g.boxH) - (draws[k].at.y + m.Height())
  {
    seq(|img.glyphs|, k requires 0 <= k < |img.glyphs| =>
      var g := img.glyphs[k];
      DrawGlyph(g.boxX, g.boxY, g.boxW, g.boxH, g.glyph, g.font, g.center, measure))
  }

  /** In the calendar every text is measured on itself, and a box of its measured width and height at its draw origin has equal margins on both sides of its own cell. */
  lemma CalendarTextCentred(inputs: CalInputs, measure: (string, Font) -> BBox, k: int)
    requires 0 <= k < 6
    ensures var img := GetCalImage(inputs);
      var d := CalendarDraws(img, measure)[k];
      var g := img.glyphs[k];
      var m := measure(d.text, g.font);
      d.at.x - g.boxX == (g.boxX + g.boxW) - (d.at.x + m.Width()) &&
      d.at.y - g.boxY == (g.boxY + g.boxH) - (d.at.y + m.Height())
  {
    var img := GetCalImage(inputs);
    assert img.glyphs[k].center.GetOr(img.glyphs[k].glyph) == img.glyphs[k].glyph;
  }
}
