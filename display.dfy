/**
 * Display output as a trace of driver calls. Presenters append to a trace
 * instead of driving the LED, LCD or OLED hardware; pixel-level rendering
 * is not modelled.
 */
module Display {
  /** A digit glyph of a seven-segment writer: a hex digit or a blank. */
  datatype Glyph = Hex(digit: int) | Space

  datatype Op =
    // seven-segment writers (AceSegment, AceSegmentGo)
    | Home
    | Clear
    | ClearToEnd
    | WriteDigit(glyph: Glyph)
    | WriteDec2(value: int, pad: Glyph)
    | WriteDec4(value: int, pad: Glyph)
    | WriteSignedDec3(value: int, pad: Glyph)
    | WriteHourMinute24(hour: int, minute: int)
    | WriteColon(on: bool)
    | WriteString(s: string)
    | SetDecimalPoint(pos: int, on: bool)
    | SetBrightness(level: int)
    | SetBlinkDigits(mask: int)
    | WriteChar(c: char)
    | WriteClock(hour: int, minute: int)
    | WriteStyleAt(pos: int, style: int)
    // positional calls of the older segwriter package
    | WriteHexCharAt(pos: int, glyph: Glyph)
    | WriteDec2At(pos: int, value: int, pad: Glyph)
    | WriteDec4At(pos: int, value: int, pad: Glyph)
    | WriteSignedDec3At(pos: int, value: int, pad: Glyph)
    | WriteStringAt(pos: int, s: string)
    | ClearToEndFrom(pos: int)
    // character and graphic displays (LCD, OLED)
    | Print(s: string)
    | PrintNum(num: int)
    | PrintPeriod(seconds: int)
    | Newline
    | SetCursor(x: int, y: int)
    | PrintPad2(value: int, padChar: char)
    | ClearToEol
    | SetFont(font: int)
    | SetTextSize(size: int)
    | SetContrast(value: int)
    | SetInvert(on: bool)
    | SetBacklight(value: int)
    | SetBias(value: int)
    | RenderDisplay
    | DisplayPower(on: bool)
    // a whole screen whose text layout is not modelled
    | Screen(name: string)
}
