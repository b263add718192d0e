/** The display object's backlight and screensaver state: mapping an ambient
    light reading to a backlight level, setting the level, and switching the
    screensaver on and off. */
module Display {
  import opened DisplayData

  /** Largest value of the target's 32-bit `int`. */
  const Int32Max: int := 0x7FFF_FFFF

  function Max(a: int, b: int): int
  {
    if a < b then b else a
  }

  /** Backlight level for a raw photoresistor reading: the reading is scaled
      linearly by inactiveMax / rawMax (integer division), cut down to a
      multiple of ten, and never allowed below 1, so that the screen stays
      legible in the dark. The product is a 32-bit `int` in the source, so it
      must not overflow. */
  function BrightnessForReading(raw: nat, inactiveMax: nat, rawMax: nat): (level: int)
    requires rawMax > 0
    requires raw * inactiveMax <= Int32Max
    ensures level >= 1
    ensures level == 1 || level % 10 == 0
  {
    var scaled := raw * inactiveMax / rawMax;
    Max(scaled / 10 * 10, 1)
  }

  /** The level without any division: 1 when the scaled reading is below
      ten, otherwise the multiple of ten whose scaled band
      [level, level + 10) holds raw * inactiveMax / rawMax. */
  lemma BrightnessForReadingCharacterized(raw: nat, inactiveMax: nat, rawMax: nat)
    requires rawMax > 0
    requires raw * inactiveMax <= Int32Max
    ensures var level := BrightnessForReading(raw, inactiveMax, rawMax);
      (level == 1 <==> raw * inactiveMax < 10 * rawMax) &&
      (level != 1 ==>
        level >= 10 && level % 10 == 0 &&
        level * rawMax <= raw * inactiveMax < (level + 10) * rawMax)
  {
    var p := raw * inactiveMax;
    var s := p / rawMax;
    var t := s / 10 * 10;
    assert s * rawMax <= p < (s + 1) * rawMax;
    if p < 10 * rawMax {
      assert s < 10 by {
        if s >= 10 { MulLeq(10, s, rawMax); }
      }
    } else {
      assert s >= 10 by {
        if s < 10 { MulLeq(s + 1, 10, rawMax); }
      }
      assert t <= s < t + 10;
      MulLeq(t, s, rawMax);
      MulLeq(s + 1, t + 10, rawMax);
    }
  }

  /** A brighter room never gives a dimmer screen. */
  lemma BrightnessForReadingMonotone(raw1: nat, raw2: nat, inactiveMax: nat, rawMax: nat)
    requires rawMax > 0
    requires raw1 <= raw2
    requires raw2 * inactiveMax <= Int32Max
    ensures raw1 * inactiveMax <= Int32Max
    ensures BrightnessForReading(raw1, inactiveMax, rawMax) <= BrightnessForReading(raw2, inactiveMax, rawMax)
  {
    MulLeq(raw1, raw2, inactiveMax);
    DivLeq(raw1 * inactiveMax, raw2 * inactiveMax, rawMax);
    DivLeq(raw1 * inactiveMax / rawMax, raw2 * inactiveMax / rawMax, 10);
  }

  /** Within the sensor's calibrated range the level never exceeds the
      inactive maximum. */
  lemma BrightnessForReadingBounded(raw: nat, inactiveMax: nat, rawMax: nat)
    requires rawMax > 0 && inactiveMax >= 1
    requires raw <= rawMax
    requires raw * inactiveMax <= Int32Max
    ensures BrightnessForReading(raw, inactiveMax, rawMax) <= inactiveMax
  {
    var p := raw * inactiveMax;
    MulLeq(raw, rawMax, inactiveMax);
    assert p <= inactiveMax * rawMax;
    var s := p / rawMax;
    assert s <= inactiveMax by {
      if s > inactiveMax { MulLeq(inactiveMax + 1, s, rawMax); }
    }
  }

  /** Total darkness gives level 1, never 0. */
  lemma BrightnessForReadingInDark(inactiveMax: nat, rawMax: nat)
    requires rawMax > 0
    ensures BrightnessForReading(0, inactiveMax, rawMax) == 1
  {
  }

  /** A full-scale reading gives the largest multiple of ten not above the
      inactive maximum (or 1 if that is 0): within ten of the cap and never
      above it. */
  lemma BrightnessForReadingAtFullScale(inactiveMax: nat, rawMax: nat)
    requires rawMax > 0 && inactiveMax >= 1
    requires rawMax * inactiveMax <= Int32Max
    ensures var level := BrightnessForReading(rawMax, inactiveMax, rawMax);
      level == Max(inactiveMax / 10 * 10, 1) && inactiveMax - 10 < level <= inactiveMax
  {
    assert rawMax * inactiveMax / rawMax == inactiveMax by {
      assert inactiveMax * rawMax == rawMax * inactiveMax;
    }
  }

  lemma DivLeq(a: nat, b: nat, d: nat)
    requires a <= b && d > 0
    ensures a / d <= b / d
  {
    if a / d > b / d {
      MulLeq(b / d + 1, a / d, d);
    }
  }

  /** The display: its backlight level, whether the screensaver uses the
      coloured edge, and the screensaver's canvas, position and redraw flags.
      The three light-sensing constants are supplied at construction. */
  class RGBDisplay {
    /** Upper end of the automatic brightness range. */
    const brightnessInactiveMax: nat
    /** Raw sensor reading taken as full daylight. */
    const photodiodeLightRawMax: nat
    /** Level from which the screensaver shows a coloured edge. */
    const brightnessBackgroundColorThreshold: int

    var currentBrightness: int
    var showColoredEdgeScreensaver: bool
    var redrawDisplay: bool
    var refreshScreensaverCanvas: bool
    /** Whether the screensaver's off-screen canvas is allocated. */
    var canvasPresent: bool
    var screensaverX1: Int16
    var screensaverY1: Int16
    var currentRandomColorIndex: int

    /** Every level written to the backlight PWM, oldest first. */
    ghost var backlightWrites: seq<int>

    /** The backlight holds currentBrightness: the last level written, or the
        power-on level 0 when nothing was written yet. No write repeats the
        level already on the backlight. */
    ghost predicate BacklightTracksBrightness()
      reads this
    {
      (backlightWrites == [] ==> currentBrightness == 0) &&
      (backlightWrites != [] ==> backlightWrites[|backlightWrites| - 1] == currentBrightness && backlightWrites[0] != 0) &&
      (forall i :: 0 < i < |backlightWrites| ==> backlightWrites[i - 1] != backlightWrites[i])
    }

    ghost predicate Valid()
      reads this
    {
      photodiodeLightRawMax > 0 && brightnessInactiveMax >= 1 &&
      0 <= currentRandomColorIndex < ColorPickerWheelSize &&
      BacklightTracksBrightness()
    }

    /** Whether the coloured-edge flag matches the current level. */
    predicate EdgeFlagMatchesBrightness()
      reads this
    {
      showColoredEdgeScreensaver == (currentBrightness >= brightnessBackgroundColorThreshold)
    }

    constructor (inactiveMax: nat, rawMax: nat, backgroundColorThreshold: int)
      requires rawMax > 0 && inactiveMax >= 1
      ensures Valid()
      ensures brightnessInactiveMax == inactiveMax && photodiodeLightRawMax == rawMax
      ensures brightnessBackgroundColorThreshold == backgroundColorThreshold
      ensures currentBrightness == 0 && showColoredEdgeScreensaver
      ensures !redrawDisplay && refreshScreensaverCanvas && !canvasPresent
      ensures screensaverX1 == 0 && screensaverY1 == 0 && currentRandomColorIndex == 0
      ensures backlightWrites == []
    {
      brightnessInactiveMax := inactiveMax;
      photodiodeLightRawMax := rawMax;
      brightnessBackgroundColorThreshold := backgroundColorThreshold;
      currentBrightness := 0;
      showColoredEdgeScreensaver := true;
      redrawDisplay := false;
      refreshScreensaverCanvas := true;
      canvasPresent := false;
      screensaverX1, screensaverY1 := 0, 0;
      currentRandomColorIndex := 0;
      backlightWrites := [];
    }

    /** Sets the backlight level; the PWM is written only when the level
        changes. */
    method SetBrightness(brightness: int)
      requires Valid()
      modifies this`currentBrightness, this`showColoredEdgeScreensaver, this`backlightWrites
      ensures Valid()
      ensures currentBrightness == brightness
      ensures showColoredEdgeScreensaver == (brightness >= brightnessBackgroundColorThreshold)
      ensures EdgeFlagMatchesBrightness()
      ensures backlightWrites == old(backlightWrites) + (if old(currentBrightness) != brightness then [brightness] else [])
    {
      if currentBrightness != brightness {
        backlightWrites := backlightWrites + [brightness];
      }
      currentBrightness := brightness;
      showColoredEdgeScreensaver := brightness >= brightnessBackgroundColorThreshold;
    }

    /** Sets the backlight to full, and does nothing at all when it is
        already there. */
    method SetMaxBrightness()
      requires Valid()
      modifies this`currentBrightness, this`showColoredEdgeScreensaver, this`backlightWrites
      ensures Valid()
      ensures currentBrightness == MaxBrightness
      ensures old(currentBrightness) == MaxBrightness ==>
        showColoredEdgeScreensaver == old(showColoredEdgeScreensaver) && backlightWrites == old(backlightWrites)
      ensures old(currentBrightness) != MaxBrightness ==>
        EdgeFlagMatchesBrightness() && backlightWrites == old(backlightWrites) + [MaxBrightness]
      ensures old(EdgeFlagMatchesBrightness()) ==> EdgeFlagMatchesBrightness()
    {
      if currentBrightness != MaxBrightness {
        SetBrightness(MaxBrightness);
      }
    }

    /** Reads the light sensor (`raw` is the reading) and sets the backlight
        to the mapped level. */
    method CheckPhotoresistorAndSetBrightness(raw: nat)
      requires Valid()
      requires raw * brightnessInactiveMax <= Int32Max
      modifies this`currentBrightness, this`showColoredEdgeScreensaver, this`backlightWrites
      ensures Valid()
      ensures currentBrightness == BrightnessForReading(raw, brightnessInactiveMax, photodiodeLightRawMax)
      ensures currentBrightness >= 1
      ensures raw <= photodiodeLightRawMax ==> currentBrightness <= brightnessInactiveMax
      ensures EdgeFlagMatchesBrightness()
      ensures backlightWrites == old(backlightWrites) +
        (if old(currentBrightness) != currentBrightness then [currentBrightness] else [])
    {
      var level := BrightnessForReading(raw, brightnessInactiveMax, photodiodeLightRawMax);
      if raw <= photodiodeLightRawMax {
        BrightnessForReadingBounded(raw, brightnessInactiveMax, photodiodeLightRawMax);
      }
      SetBrightness(level);
    }

    /** Switches the screensaver on or off: turning it off frees the canvas
        when there is one; otherwise the canvas is marked for refresh. Either
        way the screensaver restarts at (0, 20) and the display is marked for
        a full redraw. */
    method ScreensaverControl(turnOn: bool)
      modifies this`canvasPresent, this`refreshScreensaverCanvas, this`screensaverX1, this`screensaverY1, this`redrawDisplay
      ensures screensaverX1 == 0 && screensaverY1 == 20 && redrawDisplay
      ensures !turnOn && old(canvasPresent) ==>
        !canvasPresent && refreshScreensaverCanvas == old(refreshScreensaverCanvas)
      ensures turnOn || !old(canvasPresent) ==>
        refreshScreensaverCanvas && canvasPresent == old(canvasPresent)
    {
      if !turnOn && canvasPresent {
        canvasPresent := false;
      } else {
        refreshScreensaverCanvas := true;
      }
      screensaverX1 := 0;
      screensaverY1 := 20;
      redrawDisplay := true;
    }

    /** The colour the screensaver currently draws in: a palette colour,
        never the background. */
    function CurrentScreensaverColor(): (c: UInt16)
      reads this
      requires Valid()
      ensures c in ColorPickerWheel && c != DisplayBackgroundColor
    {
      WheelColor(currentRandomColorIndex)
    }
  }

  /** Setting the same level twice writes the backlight at most once. */
  method SetBrightnessTwice(d: RGBDisplay, brightness: int)
    requires d.Valid()
    modifies d
    ensures d.Valid() && d.currentBrightness == brightness
    ensures |d.backlightWrites| <= |old(d.backlightWrites)| + 1
  {
    d.SetBrightness(brightness);
    d.SetBrightness(brightness);
  }
}
