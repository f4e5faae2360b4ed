# impish e-ink appliance: a Dafny model of its layout and dispatch logic

The appliance is a Raspberry Pi with an e-ink display and four buttons.
Pressing a button renders one of three images and shows it: an astrological
and weather calendar, a table of the hosts found on the local network, or the
next photo of a slideshow. Most of the program is I/O: HTTP, the subnet scan,
GPIO, the display driver and drawing with an imaging library. This project
models the deterministic parts that remain once those are treated as given
inputs and recorded outputs:

- `cal.dfy`, module `Calendar` (cal.py). It holds the planet tables and the
  day-ruler lookup. It has the text-centring rule of `center_glyph` and
  `draw_glyph`, the weather-icon crop and offset of `draw_weather_icon`, the
  planetary-hour length of `find_hour_length` and the moon-phase bucket. It
  also gives the fixed layout of `get_cal_image` as a function that returns
  the composed image's pastes and glyph requests (`GetCalImage`). Carrying
  those requests out with given font metrics is `CalendarDraws`.
- `netlist.dfy`, module `NetTable` (netlist.py). It has the short host name,
  the two-cell rows, and `draw_table_on_image` as a method. The method's
  nested loops emit one text-draw command per cell instead of painting
  pixels. `get_network_image` runs over a given scan result.
- `buttons.dfy`, module `Buttons` (buttons.py). The slideshow's
  `itertools.cycle` is a class. It holds the joined paths, fixed at
  creation, and a cursor. The dispatcher is a class whose `HandleButton`
  picks the image by pin, advances the cycle only on the slideshow pins, and
  logs `SetImage(image, 0.5)` then `Show` on the display.
- `wrappers.dfy`, module `Wrappers`: the `Option` type. It models an absent
  `center` argument and an exhausted iterator.

Python floats are modelled as exact `real`s. `int(x)` on a float truncates
toward zero (`Calendar.Trunc`), `//` on floats floors, and `%` on floats
takes the sign of the modulus (`Calendar.FloatMod12`). The layout constants
`448 * .25 = 112`, `600 * .25 = 150` and `600 / 2 = 300` are exact in
binary floating point, so the real model gives the same coordinates.

The temperature suffix is modelled as the two characters the source text
shows at cal.py:134, `Â` followed by `°`.

## Model

| member | source | states |
|---|---|---|
| `Calendar.DayRuler` | cal.py:102 | The day ruler for weekday d (Monday = 0) depends on d alone: Moon, Mars, Mercury, Jupiter, Venus, Saturn, Sun by name and letters R U S V T W Q. It is also one of the hour rulers. |
| `Calendar.DayRulerLetters` | cal.py:11-18 | The day table has seven entries whose symbol-font letters, Monday first, spell RUSVTWQ. |
| `Calendar.RulerTablesArePermutations` | cal.py:18-19 | The hour table is the day table reordered by 5,3,1,6,4,2,0. Neither table repeats a planet, so both hold the same seven planets once each. |
| `Calendar.CenterGlyph` | cal.py:45-51 | A box of the measured width and height, placed at the draw origin, has equal left and right margins and equal top and bottom margins in the rectangle. When the text fits, that box stays inside the rectangle. Only the measured width and height are used, not the box's own left and top. |
| `Calendar.CenterGlyphInkOffset` | cal.py:45-51 | The text's own measured box, drawn at the origin offset by its left and top, has a left margin larger than its right margin by twice its left, and a top margin larger than its bottom margin by twice its top. |
| `Calendar.DrawGlyph` | cal.py:54-62 | The glyph is drawn in the given font. The text measured for centring is `center` when given and the glyph otherwise. It is centred in the cell from (bx, by) to (bx + quarter_width, by + quarter_height). |
| `Calendar.CropStart` | cal.py:69-70 | For a side of at least 100 the truncated start `int((size-100)/2)` leaves a 100-pixel span inside the image. The two margins differ by at most one pixel. |
| `Calendar.CropEnd` | cal.py:71-73 | For a side of at least 100 the truncated end `int((size+100)/2)` is exactly 100 past the start. |
| `Calendar.PasteStart` | cal.py:75-77 | In a cell of at least 100 pixels that starts at a whole-pixel coordinate, the 100-pixel icon lands inside the cell, and the margin after it exceeds the margin before it by 0 or 1 pixel (`(quarter-100)//2` floors). |
| `Calendar.DrawWeatherIcon` | cal.py:65-77 | The alpha mask gets the same crop box as the icon. For sides of at least 100 that box is exactly 100x100, inside the icon and central, with the margin after it 0 or 1 pixel wider than the margin before it. The paste position is `PasteStart` on each axis. |
| `Calendar.NarrowOddIconCrop` | cal.py:69-73 | An icon side below 100 with odd size gets a crop 99 wide, because truncation toward zero rounds the negative start up. |
| `Calendar.FindHourLength` | cal.py:80-85 | The length L is the elapsed time over 12, truncated toward zero: 12L <= E < 12L + 12 for E >= 0, and the mirror bounds for E <= 0. |
| `Calendar.HourLengthOfWholeSeconds` | cal.py:80-85 | For whole seconds with sunset not before sunrise, the hour length is the integer quotient (sunset - sunrise) / 12. |
| `Calendar.MoonIndex` | cal.py:123 | `int(phase*12 % 12)` always lies in 0..11 and equals floor(12 * phase) mod 12 for every phase, so a phase of exactly 1.0 gives 0. |
| `Calendar.MoonBuckets` | cal.py:123 | For a phase in [0,1), the index is k exactly when k/12 <= phase < (k+1)/12. So 0 gives 0, just below 1/12 gives 0, 1/12 gives 1, and just below 1 gives 11. |
| `Calendar.MoonIndexMonotone` | cal.py:123 | Within the cycle the moon index never decreases as the phase grows. |
| `Calendar.MoonFile` | cal.py:124 | The icon path is `moon_icons/`, then the decimal index, then `.png`. |
| `Calendar.MoonFilesDistinct` | cal.py:124 | Distinct moon buckets load distinct icon files. |
| `Calendar.GetCalImage` | cal.py:88-141 | The canvas is 600x448. The moon icon is chosen by the phase bucket and pasted at (150, 112). The weather icon is cropped to its central 100x100 (a margin difference of at most one pixel on each axis), mask included, and pasted at (25, 118). The moon index is `MoonIndex` of the phase. There are six glyph draws: the day ruler's letter, then Saturn's letter whatever the hour length (both at size 100 in the symbol font), then the temperature with its suffix, the date, the sunrise and the sunset (size 60 in the text font). None has a separate `center` text. |
| `Calendar.CalendarCells` | cal.py:114-139 | The glyph cells are (0,224) and (150,224), each 150 wide. The text cells are at x = 275 with y = 0, 97, 199 and 311, each 300 wide. |
| `Calendar.HourGlyphIgnoresDaylight` | cal.py:109-133 | The glyphs drawn do not depend on the sunrise and sunset timestamps, hence not on the computed hour length. The hour-ruler glyph is always "W" (Saturn). |
| `Calendar.CalendarDraws` | cal.py:130-139 | Each glyph request becomes one text draw with the request's text and font. A box of the measured width and height, placed at the draw origin, has equal margins on both sides inside the request's cell. |
| `Calendar.CalendarTextCentred` | cal.py:130-139 | On the calendar, each of the six texts is measured on itself, and a box of its measured width and height placed at its draw origin is centred in its own cell. |
| `NetTable.ShortHostname` | netlist.py:8 | The short name is a prefix of the host name and contains no dot. It is the whole name when there is no dot; otherwise the next character is the first dot. |
| `NetTable.HostRows` | netlist.py:8 | There is one row per host, in scan order. Each row has exactly two cells: the short host name, then the address. |
| `NetTable.DrawTable` | netlist.py:14-36 | The method emits exactly one draw per cell, as many as the sum of the row lengths, in row-major order. Cell (i, j) is drawn at (start_x + j*cell_width + 5, start_y + i*cell_height + 5) in the table's font size. The defaults are cell height 30, cell width 200 and font size 12. |
| `NetTable.CellsBeforeMonotone` | netlist.py:32-33 | The draws of an earlier row all come before the first draw of any later row. |
| `NetTable.CommandCell` | netlist.py:32-36 | Every draw index belongs to a row whose cells span it, and row spans do not overlap. So each draw is exactly one cell's. |
| `NetTable.CellPositionsDistinct` | netlist.py:34-35 | With positive cell sizes, y strictly increases with the row and x with the column. Distinct cells get distinct positions. |
| `NetTable.HostRowsCellsBefore` | netlist.py:8 | Since every host row has two cells, host i's cells start at draw 2i. |
| `NetTable.HostRowDrawn` | netlist.py:8-10 | In the host table, host i's short name is drawn at (5, 45i+5) and its address at (305, 45i+5), both at size 25. |
| `NetTable.HostTableDraws` | netlist.py:8-10 | The host table has exactly 2n draws for n hosts, row i at y = 45i + 5, the name at x = 5 and the address at x = 305. |
| `NetTable.GetNetworkImage` | netlist.py:5-11 | The image is a 600x448 canvas holding exactly those 2n draws. No row is dropped. |
| `NetTable.RowsPastCanvas` | netlist.py:9-10 | Rows are not clipped: with more than ten hosts, the eleventh row is drawn at y = 455, below the 448-pixel canvas. |
| `Buttons.PathJoin` | buttons.py:28 | `os.path.join`: an absolute name replaces the directory. Otherwise the result starts with the directory and ends with the name, and a `/` separates a non-empty directory from the name. That `/` is added only when the directory is non-empty and does not already end in `/` (the result is then exactly one longer than the two parts); otherwise the result is the two parts concatenated, so `images/` joined to `a.png` is `images/a.png`. |
| `Buttons.Cycled` | buttons.py:29 | The first k values of the cycle: exactly k of them, value i being `files[i mod n]`. |
| `Buttons.TwoRoundsAt` | buttons.py:29 | Among the first 2n values, value i is file i for i < n and file i - n after that. |
| `Buttons.TwoRounds` | buttons.py:27-29 | 2n advances give the listing twice, in the same order both times. The multiset of what is yielded is twice the listing's, so each file is visited exactly twice. |
| `Buttons.FileCycle.constructor` | buttons.py:27-29 | The cycle holds the directory joined with each listing entry, in listing order. Nothing has been yielded yet. |
| `Buttons.FileCycle.Next` | buttons.py:40 | With files, an advance yields `files[k mod n]` for the k-th advance, appends it to the yielded history and moves the cursor by one, wrapping after the last file. With an empty listing it yields nothing (StopIteration) and changes nothing. The file list is a constant, so it never changes after creation. |
| `Buttons.PinAction` | buttons.py:35-41 | Pin 5 selects the calendar and pin 6 the network table. Every other pin, and only those, advances the slideshow. |
| `Buttons.ButtonActions` | buttons.py:16 | The four pins 5, 6, 16 and 24, top to bottom, show the calendar, the network table, and the next slide, the last twice over. |
| `Buttons.Dispatcher.constructor` | buttons.py:46-47 | At start-up the cycle is built once over the listing of `images/`, and nothing has been shown. |
| `Buttons.Dispatcher.HandleButton` | buttons.py:32-43 | Pin 5 shows the calendar for the given inputs. Pin 6 shows the host table for the given scan. Any other pin shows the next file of the cycle. Only that last branch moves the cycle. Each press that produces an image ends with exactly one `SetImage` at saturation 0.5 followed by one `Show`. An empty slideshow raises before the display is touched. |

## Left out

- HTTP: `request_wrapper`, the weather query, its JSON field extraction and the icon download (cal.py:25-42, cal.py:91-111) are foreign I/O. The weather snapshot (icon size, temperature text, sunrise and sunset timestamps, moon phase) is an input. A failed request, which makes the source raise on field access, is not modelled.
- Clocks and time zones: `datetime.now()`, `utcfromtimestamp`, the `pytz` conversion to America/Indiana/Indianapolis and all `strftime` formatting are library calendar logic. The weekday and the formatted date, sunrise and sunset texts are inputs. The hour length is computed from the raw timestamps, since a time-zone change does not alter their difference.
- `str(temp)` formatting of the temperature number: the temperature text is an input.
- Imaging-library work: canvas creation, `paste`, `draw.text`, `crop` pixels, font loading and `textbbox` metrics. Text metrics are a given function from text and font to a bounding box. Drawing is a sequence of text-draw commands. Pastes are positions and crop boxes. Which band serves as paste mask is not modelled (band 1 of the moon icon, the alpha band of the weather icon). Neither are the colours.
- The font choice at netlist.py:29: its condition tests the truthiness of a function object and always picks the TrueType font, so only the font size is kept.
- The `nmap` ping sweep and host-name resolution (netlist.py:6-7) are a network scan. The scan result is the input list of (host name, address) pairs.
- GPIO set-up, the 250 ms debounce, `signal.pause` and the serialisation of interrupt callbacks (buttons.py:19-23, buttons.py:49-52) are OS and concurrency concerns. `HandleButton` models one press handled to completion.
- The display driver (buttons.py:24) is reduced to the ordered log of `set_image` and `show` calls. `Image.open` on a slideshow file is reduced to the file path it opens, and a failure to decode it is not modelled.
- Floating-point rounding: moon phase, timestamps and layout coordinates are exact reals.
- `os.listdir` is an input listing. Its order is whatever the operating system returns.
- NetTable.DrawTable: cells are strings; the `str(cell)` conversion that `draw_table_on_image` applies to a cell of any type is not modelled, since its only caller passes `[short name, address]` string rows.
