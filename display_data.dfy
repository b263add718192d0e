/** Static user-interface data of the alarm clock's display class: screen size,
    backlight levels, the screensaver palette, the monochrome icon bitmaps,
    the on-screen keyboard layouts and the fixed button geometry.
    Everything here is a constant; the lemmas state how the tables fit
    together, which is what the drawing and hit-testing code relies on. */
module DisplayData {

  type UInt8 = x: int | 0 <= x < 0x100
  type UInt16 = x: int | 0 <= x < 0x1_0000
  type Int16 = x: int | -0x8000 <= x < 0x8000

  // ---------------------------------------------------------------- screen

  const TftWidth: UInt16 := 320
  const TftHeight: UInt16 := 240

  // ------------------------------------------------------ backlight levels

  const NightBrightness: int := 1
  const EveningBrightness: int := 100
  const DayBrightness: int := 150
  const MaxBrightness: int := 255

  /** The named levels rise strictly, and the top one is the full scale of
      the 8-bit backlight PWM. */
  lemma BrightnessLevelsOrdered()
    ensures 0 < NightBrightness < EveningBrightness < DayBrightness < MaxBrightness
    ensures MaxBrightness == 0xFF
  {
  }

  // ---------------------------------------------------- screensaver palette

  const DisplayColorBlack: UInt16 := 0x0000
  const DisplayBackgroundColor: UInt16 := DisplayColorBlack

  const ColorPickerWheelSize: UInt8 := 33

  /** RGB565 colours the screensaver picks from. */
  const ColorPickerWheel: seq<UInt16> :=
    [0x6D9D, 0x867E, 0x897B, 0x065F, 0xF7BB, 0xDD0D, 0xF52C, 0x07FF, 0x46F9,
     0xCC53, 0x67E0, 0x0653, 0x07E0, 0xAFE6, 0xF81F, 0xF897, 0xFE76, 0xFCCC,
     0xFC60, 0xFBE0, 0xFA69, 0xFAF9, 0xFBBF, 0xB81F, 0x991D, 0xF840, 0xF800,
     0xFB09, 0xFFFD, 0x7FE0, 0xFEE0, 0xFFE0, 0xBFE0]

  /** The declared size is the number of colours in the table, and no two
      slots hold the same colour. */
  lemma ColorPickerWheelShape()
    ensures |ColorPickerWheel| == ColorPickerWheelSize
    ensures forall i, j :: 0 <= i < j < |ColorPickerWheel| ==> ColorPickerWheel[i] != ColorPickerWheel[j]
  {
  }

  /** The colour at a palette index; every index below the declared size is
      valid, and no palette colour is the background colour, so a shape drawn
      in it is always visible. */
  function WheelColor(index: int): (c: UInt16)
    requires 0 <= index < ColorPickerWheelSize
    ensures c in ColorPickerWheel
    ensures c != DisplayBackgroundColor
  {
    ColorPickerWheel[index]
  }

  // ---------------------------------------------------------- icon bitmaps

  /** A 1-bit-per-pixel bitmap with rows padded to whole bytes, as its
      dimension constants and the declared size of its byte array give it. */
  datatype MonoBitmap = MonoBitmap(width: UInt8, height: UInt8, byteCount: nat)

  /** Bytes taken by one row of `width` pixels: the least whole number of
      bytes holding `width` bits. */
  function RowBytes(width: nat): (n: nat)
    ensures 8 * n >= width
    ensures n == 0 || 8 * (n - 1) < width
  {
    (width + 7) / 8
  }

  predicate WellSized(b: MonoBitmap)
  {
    b.byteCount == RowBytes(b.width) * b.height
  }

  const BellBitmap := MonoBitmap(114, 75, 1125)
  const BellFallenBitmap := MonoBitmap(75, 71, 710)
  const BellSmallBitmap := MonoBitmap(70, 46, 414)
  const BellFallenSmallBitmap := MonoBitmap(49, 46, 322)
  const SettingsGearBitmap := MonoBitmap(40, 40, 200)

  const IconBitmaps: seq<MonoBitmap> :=
    [BellBitmap, BellFallenBitmap, BellSmallBitmap, BellFallenSmallBitmap, SettingsGearBitmap]

  /** Every icon's byte array is exactly as long as its dimensions demand,
      and the icon fits on the screen. */
  lemma IconBitmapsWellSized()
    ensures RowBytes(BellBitmap.width) == 15 && RowBytes(BellFallenBitmap.width) == 10
    ensures RowBytes(BellSmallBitmap.width) == 9 && RowBytes(BellFallenSmallBitmap.width) == 7
    ensures RowBytes(SettingsGearBitmap.width) == 5
    ensures forall b <- IconBitmaps :: WellSized(b) && b.width <= TftWidth && b.height <= TftHeight
  {
  }

  /** Index of the byte that holds pixel (x, y): rows follow each other,
      each row starts on a fresh byte, eight pixels to a byte. */
  function PixelByte(b: MonoBitmap, x: nat, y: nat): nat
  {
    y * RowBytes(b.width) + x / 8
  }

  /** In a well-sized bitmap every pixel's byte lies inside the array, so
      drawing the icon reads no byte past its end. */
  lemma PixelByteInBounds(b: MonoBitmap, x: nat, y: nat)
    requires WellSized(b)
    requires x < b.width && y < b.height
    ensures PixelByte(b, x, y) < b.byteCount
  {
    var rb := RowBytes(b.width);
    assert x / 8 < rb;
    assert y * rb <= (b.height - 1) * rb by {
      MulLeq(y, b.height - 1, rb);
    }
    assert (b.height - 1) * rb + rb == b.height * rb;
  }

  /** The array has no slack either: the bottom-right pixel sits in its last
      byte. */
  lemma LastPixelInLastByte(b: MonoBitmap)
    requires WellSized(b)
    requires b.width > 0 && b.height > 0
    ensures PixelByte(b, b.width - 1, b.height - 1) == b.byteCount - 1
  {
    var rb := RowBytes(b.width);
    assert (b.width - 1) / 8 == rb - 1;
    assert (b.height - 1) * rb + rb == b.height * rb;
  }

  lemma MulLeq(a: nat, b: nat, c: nat)
    requires a <= b
    ensures a * c <= b * c
  {
  }

  // ------------------------------------------------------ on-screen keyboard

  /** Width of every keyboard table row (a `char[13]` array). */
  const KeyboardColumns: nat := 13

  const Nul: char := '\0'

  /** A small header number stored in a `char` cell. */
  function Header(n: nat): char
    requires n < 0x80
  {
    n as char
  }

  /** A row as the compiler stores it: the initializer followed by zero
      bytes up to the row width. */
  function Padded(cells: seq<char>): (row: seq<char>)
    requires |cells| <= KeyboardColumns
    ensures |row| == KeyboardColumns
    ensures row[..|cells|] == cells
    ensures forall k :: |cells| <= k < KeyboardColumns ==> row[k] == Nul
  {
    cells + seq(KeyboardColumns - |cells|, _ => Nul)
  }

  const MobileKbCapitals: seq<seq<char>> := [
    Padded([Header(0), Header(13), Header(10), 'Q', 'W', 'E', 'R', 'T', 'Y', 'U', 'I', 'O', 'P']),
    Padded([Header(1), Header(12), Header(9), 'A', 'S', 'D', 'F', 'G', 'H', 'J', 'K', 'L']),
    Padded([Header(3), Header(10), Header(7), 'Z', 'X', 'C', 'V', 'B', 'N', 'M'])
  ]

  const MobileKbSmalls: seq<seq<char>> := [
    Padded([Header(0), Header(13), Header(10), 'q', 'w', 'e', 'r', 't', 'y', 'u', 'i', 'o', 'p']),
    Padded([Header(1), Header(12), Header(9), 'a', 's', 'd', 'f', 'g', 'h', 'j', 'k', 'l']),
    Padded([Header(3), Header(10), Header(7), 'z', 'x', 'c', 'v', 'b', 'n', 'm'])
  ]

  const MobileNumKeys: seq<seq<char>> := [
    Padded([Header(0), Header(13), Header(10), '1', '2', '3', '4', '5', '6', '7', '8', '9', '0']),
    Padded([Header(0), Header(13), Header(10), '-', '/', ':', ';', '(', ')', '$', '&', '@', '"']),
    Padded([Header(5), Header(8), Header(5), '.', ',', '?', '!', '\''])
  ]

  const MobileSymKeys: seq<seq<char>> := [
    Padded([Header(0), Header(13), Header(10), '[', ']', '{', '}', '#', '%', '^', '*', '+', '=']),
    Padded([Header(4), Header(9), Header(6), '_', '\\', '|', '~', '<', '>']),
    Padded([Header(5), Header(8), Header(5), '.', ',', '?', '!', '\''])
  ]

  const KeyboardLayouts: seq<seq<seq<char>>> :=
    [MobileKbCapitals, MobileKbSmalls, MobileNumKeys, MobileSymKeys]

  /** The header of a row describes its keys: the second cell is the number
      of filled cells (header included), the third the number of keys; the
      key cells are all filled and the cells after them are zero. */
  predicate RowWellFormed(row: seq<char>)
  {
    |row| == KeyboardColumns &&
    3 <= row[1] as int <= KeyboardColumns &&
    row[2] as int == row[1] as int - 3 &&
    (forall k :: 3 <= k < row[1] as int ==> row[k] != Nul) &&
    (forall k :: row[1] as int <= k < KeyboardColumns ==> row[k] == Nul)
  }

  /** The keys of a well-formed row, in order. */
  function RowKeys(row: seq<char>): (keys: seq<char>)
    requires RowWellFormed(row)
    ensures |keys| == row[2] as int
    ensures Nul !in keys
    ensures row == row[..3] + keys + seq(KeyboardColumns - 3 - |keys|, _ => Nul)
  {
    row[3..row[1] as int]
  }

  /** Every layout has three rows and each row's header agrees with its keys. */
  lemma KeyboardRowsWellFormed()
    ensures forall layout <- KeyboardLayouts :: |layout| == 3
    ensures forall layout <- KeyboardLayouts, row <- layout :: RowWellFormed(row)
  {
    forall layout <- KeyboardLayouts, row <- layout
      ensures RowWellFormed(row)
    {
      PaddedRowWellFormed(row);
    }
  }

  lemma PaddedRowWellFormed(row: seq<char>)
    requires row in MobileKbCapitals || row in MobileKbSmalls || row in MobileNumKeys || row in MobileSymKeys
    ensures RowWellFormed(row)
  {
  }

  /** ASCII lower-casing, as C's `tolower` does in the "C" locale. */
  function AsciiLower(c: char): char
  {
    if 'A' <= c <= 'Z' then (c as int + ('a' as int - 'A' as int)) as char else c
  }

  /** The lower-case layout is the capital layout with every cell lower-cased:
      same headers, same padding, each capital letter replaced by its small
      letter. */
  lemma SmallsAreLowercasedCapitals()
    ensures |MobileKbSmalls| == |MobileKbCapitals| == 3
    ensures forall r :: 0 <= r < 3 ==> |MobileKbSmalls[r]| == |MobileKbCapitals[r]|
    ensures forall r, k :: 0 <= r < 3 && 0 <= k < KeyboardColumns ==>
      MobileKbSmalls[r][k] == AsciiLower(MobileKbCapitals[r][k])
    ensures forall r :: 0 <= r < 3 ==> MobileKbSmalls[r][..3] == MobileKbCapitals[r][..3]
  {
  }

  /** The keys of the capital layout are all capital letters. */
  lemma CapitalKeysAreLetters()
    ensures forall r, c :: 0 <= r < 3 && RowWellFormed(MobileKbCapitals[r]) && c in RowKeys(MobileKbCapitals[r]) ==>
      'A' <= c <= 'Z'
  {
  }

  /** The numeric and the symbol layouts share their third row of
      punctuation keys. */
  lemma NumAndSymShareThirdRow()
    ensures MobileNumKeys[2] == MobileSymKeys[2]
    ensures RowWellFormed(MobileNumKeys[2]) && RowKeys(MobileNumKeys[2]) == ".,?!'"
  {
  }

  // -------------------------------------------------------- button geometry

  /** An axis-aligned rectangle with top-left corner (x1, y1), covering the
      columns [x1, x1 + w) and the rows [y1, y1 + h). */
  datatype Rect = Rect(x1: int, y1: int, w: nat, h: nat)

  predicate Contains(r: Rect, x: int, y: int)
  {
    r.x1 <= x < r.x1 + r.w && r.y1 <= y < r.y1 + r.h
  }

  predicate OnScreen(r: Rect)
  {
    0 <= r.x1 && 0 <= r.y1 && r.x1 + r.w <= TftWidth && r.y1 + r.h <= TftHeight
  }

  /** Two rectangles are disjoint when one lies wholly left of, right of,
      above or below the other. */
  predicate Disjoint(a: Rect, b: Rect)
  {
    a.x1 + a.w <= b.x1 || b.x1 + b.w <= a.x1 || a.y1 + a.h <= b.y1 || b.y1 + b.h <= a.y1
  }

  /** Two non-empty rectangles are disjoint exactly when no touch point lies
      in both, so a touch inside one of two disjoint buttons never counts as
      a press of the other. */
  lemma DisjointIffNoCommonPoint(a: Rect, b: Rect)
    requires a.w > 0 && a.h > 0 && b.w > 0 && b.h > 0
    ensures Disjoint(a, b) <==> forall x, y :: !(Contains(a, x, y) && Contains(b, x, y))
  {
    if !Disjoint(a, b) {
      var x := if a.x1 < b.x1 then b.x1 else a.x1;
      var y := if a.y1 < b.y1 then b.y1 else a.y1;
      assert Contains(a, x, y) && Contains(b, x, y);
    }
  }

  const DateRowY0: Int16 := 140

  const CancelButtonSize: Int16 := 40
  const CancelButtonX1: Int16 := TftWidth - CancelButtonSize
  const CancelButtonY1: Int16 := TftHeight - CancelButtonSize

  const CancelButton := Rect(CancelButtonX1, CancelButtonY1, CancelButtonSize, CancelButtonSize)
  const WiFiSettingsButton := Rect(200, 0, 100, 25)
  const SsidButton := Rect(100, 0, 80, 25)
  const PasswdButton := Rect(200, 0, 120, 25)
  const WeatherButton := Rect(0, 80, 130, 25)
  const UpdateTimeButton := Rect(150, 80, 170, 25)

  const SettingsGearX1: Int16 := TftWidth - SettingsGearBitmap.width - 10
  const SettingsGearY1: Int16 := DateRowY0 - SettingsGearBitmap.height + 5
  const SettingsGear := Rect(SettingsGearX1, SettingsGearY1, SettingsGearBitmap.width, SettingsGearBitmap.height)

  const Buttons: seq<Rect> :=
    [CancelButton, WiFiSettingsButton, SsidButton, PasswdButton, WeatherButton, UpdateTimeButton, SettingsGear]

  /** The cancel button sits flush in the bottom-right corner of the screen. */
  lemma CancelButtonInCorner()
    ensures CancelButton.x1 + CancelButton.w == TftWidth
    ensures CancelButton.y1 + CancelButton.h == TftHeight
    ensures OnScreen(CancelButton)
  {
  }

  /** Every button and the settings gear lie wholly on the 320 x 240 screen. */
  lemma ButtonsOnScreen()
    ensures forall b <- Buttons :: b.w > 0 && b.h > 0 && OnScreen(b)
  {
  }

  /** SSID and PASSWD do not overlap, nor do WEATHER and UPDATE TIME, and the
      cancel button overlaps no other button: no touch point lies in two of
      them. */
  lemma ButtonsDoNotOverlap()
    ensures forall x, y :: !(Contains(SsidButton, x, y) && Contains(PasswdButton, x, y))
    ensures forall x, y :: !(Contains(WeatherButton, x, y) && Contains(UpdateTimeButton, x, y))
    ensures forall b <- Buttons[1..], x, y :: !(Contains(CancelButton, x, y) && Contains(b, x, y))
  {
    DisjointIffNoCommonPoint(SsidButton, PasswdButton);
    DisjointIffNoCommonPoint(WeatherButton, UpdateTimeButton);
    forall b <- Buttons[1..]
      ensures forall x, y :: !(Contains(CancelButton, x, y) && Contains(b, x, y))
    {
      DisjointIffNoCommonPoint(CancelButton, b);
    }
  }

  /** The WiFi settings button and the PASSWD button share their top-left
      corner, so they can only serve on different pages. */
  lemma WiFiAndPasswdOverlap()
    ensures !Disjoint(WiFiSettingsButton, PasswdButton)
    ensures Contains(WiFiSettingsButton, 200, 0) && Contains(PasswdButton, 200, 0)
  {
  }
}
