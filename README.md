# Alarm clock display: backlight, screensaver state and static UI data

This project models the part of the alarm clock's display class whose logic
is written out in `rgb_display.cpp` and `rgb_display.h`, and proves
properties of it in Dafny.

- `display.dfy`, module `Display`: the display object `RGBDisplay` as a
  class. It holds the current backlight level, the coloured-edge screensaver
  flag, the screensaver canvas (present or not), the screensaver position
  and the redraw flags. Its methods update these fields in place:
  `SetBrightness`, `SetMaxBrightness`, `CheckPhotoresistorAndSetBrightness`
  and `ScreensaverControl`. The light-to-level conversion is the pure
  function `BrightnessForReading`, called from the method. The ambient light
  reading is a method parameter. Backlight PWM writes go into a ghost log,
  `backlightWrites`. The class invariant says that the last logged level
  (or the power-on level 0) is `currentBrightness` and that no write repeats
  the level already on the backlight.
- `display_data.dfy`, module `DisplayData`: the constant tables of the
  header. These are the screen size, the backlight levels, the
  33-colour screensaver palette, and the sizes of the five icon bitmaps
  (1 bit per pixel, rows padded to whole bytes). It also holds the four
  on-screen keyboard layouts, stored as the 13-cell `char` rows the
  compiler lays out, with the zero fill after each initializer. Last come
  the button rectangles. The lemmas show that these tables fit together, so
  the drawing and hit-testing code that indexes into them stays in bounds.

The three light-sensing constants `kBrightnessInactiveMax`,
`kPhotodiodeLightRawMax` and `kBrightnessBackgroundColorThreshold` are
defined in a header that is not part of this model. They are constructor
parameters of `RGBDisplay`, with raw max > 0 and inactive max ≥ 1.

The header declares `CheckTimeAndSetBrightness` (rgb_display.h:50), but the
implementation file defines `CheckPhotoresistorAndSetBrightness`
(rgb_display.cpp:95). The model follows the defined function.

## Model

| member | source | states |
|---|---|---|
| `Display.BrightnessForReading` | rgb_display.cpp:97-98 | the level for any reading is at least 1 and is either 1 or a multiple of 10 |
| `Display.BrightnessForReadingCharacterized` | rgb_display.cpp:97-98 | without division: the level is 1 exactly when raw·inactiveMax < 10·rawMax; otherwise it is the multiple of 10 with level·rawMax ≤ raw·inactiveMax < (level+10)·rawMax |
| `Display.BrightnessForReadingMonotone` | rgb_display.cpp:97-98 | a larger reading never gives a smaller level |
| `Display.BrightnessForReadingBounded` | rgb_display.cpp:97-98 | for a reading in [0, rawMax] the level never exceeds inactiveMax |
| `Display.BrightnessForReadingInDark` | rgb_display.cpp:97-98 | a reading of 0 gives level 1, never 0 |
| `Display.BrightnessForReadingAtFullScale` | rgb_display.cpp:97-98 | the full-scale reading gives max(⌊inactiveMax/10⌋·10, 1), which lies in (inactiveMax−10, inactiveMax] |
| `Display.RGBDisplay.constructor` | rgb_display.h:70-114 | the fields start as the header initializes them: level 0, coloured edge on, no redraw, canvas refresh pending, no canvas, position (0,0), colour index 0, no backlight write yet |
| `Display.RGBDisplay.SetBrightness` | rgb_display.cpp:81-88 | afterwards the level is b and the coloured-edge flag is b ≥ threshold; the backlight is written once with b if b differs from the old level and not at all otherwise; nothing else changes |
| `Display.RGBDisplay.SetMaxBrightness` | rgb_display.cpp:90-93 | afterwards the level is 255; if it already was 255, nothing changes (flag and backlight untouched); otherwise one write of 255 and the flag recomputed |
| `Display.RGBDisplay.CheckPhotoresistorAndSetBrightness` | rgb_display.cpp:95-101 | the level becomes `BrightnessForReading` of the reading; it is ≥ 1, and ≤ inactiveMax when the reading is within range; the flag matches the level; at most one backlight write |
| `Display.RGBDisplay.ScreensaverControl` | rgb_display.cpp:103-117 | always ends at position (0, 20) with a full redraw requested; turning off with a canvas frees it and leaves the refresh flag alone; in every other case the refresh flag is set and the canvas is unchanged; the level is untouched |
| `Display.RGBDisplay.CurrentScreensaverColor` | rgb_display.h:191-192 | with the colour index (rgb_display.h:105) in [0, 33), the current colour is a palette entry and never the black background |
| `Display.SetBrightnessTwice` | rgb_display.cpp:82-87 | setting the same level twice in a row writes the backlight at most once |
| `DisplayData.BrightnessLevelsOrdered` | rgb_display.h:126-129 | night < evening < day < max, and max is 255, the full 8-bit PWM scale |
| `DisplayData.ColorPickerWheelShape` | rgb_display.h:191-192 | the palette holds exactly `kColorPickerWheelSize` = 33 colours, all distinct |
| `DisplayData.WheelColor` | rgb_display.h:191-192 | every index below 33 is valid and yields a palette colour other than the background black |
| `DisplayData.RowBytes` | rgb_display.h:204-209 | a row of w pixels takes the least whole number of bytes that holds w bits, ⌈w/8⌉ |
| `DisplayData.IconBitmapsWellSized` | rgb_display.h:204-409 | each icon's byte array is ⌈width/8⌉·height long (15·75, 10·71, 9·46, 7·46, 5·40) and each icon fits on the screen |
| `DisplayData.PixelByteInBounds` | rgb_display.h:204-409 | in a well-sized bitmap, the byte holding any pixel (x, y) inside the icon lies within the array |
| `DisplayData.LastPixelInLastByte` | rgb_display.h:204-409 | the bottom-right pixel lies in the array's last byte, so the length has no slack |
| `DisplayData.RowKeys` | rgb_display.h:411-435 | the keys of a well-formed row number exactly its third header cell, are all non-zero, and header, keys and zero fill make up the whole row |
| `DisplayData.KeyboardRowsWellFormed` | rgb_display.h:411-435 | every layout has 3 rows; in every row the third header cell is the number of keys and the second is that number plus 3; the cells after the keys are zero |
| `DisplayData.SmallsAreLowercasedCapitals` | rgb_display.h:413-423 | the small-letter layout is the capital layout lower-cased cell by cell, with identical headers |
| `DisplayData.CapitalKeysAreLetters` | rgb_display.h:413-417 | every key of the capital layout is a letter A–Z |
| `DisplayData.NumAndSymShareThirdRow` | rgb_display.h:425-435 | the numeric and symbol layouts have the same third row, whose keys are `.,?!'` |
| `DisplayData.DisjointIffNoCommonPoint` | rgb_display.h:138-143 | two non-empty rectangles are disjoint exactly when no touch point lies in both |
| `DisplayData.CancelButtonInCorner` | rgb_display.h:138 | the cancel button's right edge is the screen width and its bottom edge the screen height |
| `DisplayData.ButtonsOnScreen` | rgb_display.h:138-143 | the cancel, WiFi, SSID, PASSWD, WEATHER and UPDATE TIME buttons, and the settings gear, all lie within 320×240 |
| `DisplayData.ButtonsDoNotOverlap` | rgb_display.h:138-143 | no point lies in both SSID and PASSWD, nor in both WEATHER and UPDATE TIME, nor in the cancel button and any other button |
| `DisplayData.WiFiAndPasswdOverlap` | rgb_display.h:139-141 | the WiFi settings and PASSWD buttons share the point (200, 0), so they can only be used on different pages |

## Left out

- `RGBDisplay::Setup` (rgb_display.cpp:5-78): display-driver, SPI, rotation, pin and ADC set-up. This is hardware initialization with no state the model tracks.
- `analogRead`: the reading is the parameter `raw` of `CheckPhotoresistorAndSetBrightness`. `analogWrite` is an entry in the ghost log `backlightWrites`. `PrintLn` logging is dropped.
- `Display.BrightnessForReading`: it requires raw·inactiveMax to fit a 32-bit `int`. Beyond that the C product overflows, which is undefined behaviour. A reading above `kPhotodiodeLightRawMax` is admitted, because the source does not clamp it; only the bound lemma needs the reading in range.
- `Display.RGBDisplay.ScreensaverControl`: it does not model `tft.fillScreen` (drawing) or `PrepareTimeDayDateArrays`, a function whose body is not part of this model. Freeing the canvas is modelled only as "canvas present" becoming false.
- The power-on level of the backlight PWM is not shown in these files. The class invariant `Valid()`, which the brightness methods keep, takes it to be 0, the initial value of `current_brightness_`.
- The member functions declared without bodies in rgb_display.h are left out, because modelling them would invent behaviour. They include the screens, `DrawSun`, `DrawButton`, `FastDrawBitmap`, `PickNewRandomColor`, `MakeKeyboard`, `GetKeyboardPress`, `IsTouchWithin` and `ClassifyUserScreenTouchInput`. The pixel-to-byte layout in `PixelByte` is the row-padded 1-bit format that the bitmap sizes imply; it is not taken from `FastDrawBitmap`.
- The meaning of the first keyboard header cell (0, 1, 3, 4 or 5) is left out. It is presumably a horizontal offset used by `MakeKeyboard`, whose body is not part of this model.
- Bitmap pixel contents and font includes are left out; only the bitmaps' dimensions and byte lengths are modelled. Each initializer holds exactly as many bytes as its declared array size.
- alarm_clock.h and alarm_clock_main.h are not part of this model. They hold only declarations: the alarm check, `MinutesToAlarm`, the buzzer ISR and timer, `playNote`/`celebrateSong`, EEPROM save/load, the RTC interrupt and page changes have no bodies there. The ISR flags and `volatile secondsIncremented` are about concurrency, which the model does not cover.
- Colour constants other than the palette and the background black are left out, as are the text-position constants. No modelled operation uses them.
