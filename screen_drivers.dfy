/**
 * What MultiZoneClock and WorldClockLcd share in their Presenters: the calls
 * behind home(), renderDisplay(), setFont(), setSize() and
 * setCursorUnderAmPm() on a PCD8544 LCD and on an SSD1306 OLED, the zone
 * type a named-zone build announces, and a labelled settings line.
 */
module ScreenDrivers {
  import opened AceTime
  import opened Display

  /** The Adafruit5x7 font the OLED build selects before each frame. */
  const Adafruit5x7 := 1

  /** home(): the LCD moves the cursor to the origin, the OLED homes. */
  function HomeOps(lcd: bool): seq<Op>
  {
    if lcd then [SetCursor(0, 0)] else [Home]
  }

  /** renderDisplay(): the LCD pushes its buffer; the OLED draws as it goes. */
  function RenderOps(lcd: bool): seq<Op>
  {
    if lcd then [RenderDisplay] else []
  }

  /** setFont(): the LCD keeps its default font. */
  function FontOps(lcd: bool): seq<Op>
  {
    if lcd then [] else [SetFont(Adafruit5x7)]
  }

  /** setSize(): the LCD takes any size; the OLED knows only 1X and 2X. */
  function SizeOps(lcd: bool, size: int): seq<Op>
  {
    if lcd || size == 1 || size == 2 then [SetTextSize(size)] else []
  }

  /** setCursorUnderAmPm(): pixel row 8 on the LCD, text row 1 on the OLED. */
  function CursorUnderAmPm(lcd: bool): seq<Op>
  {
    if lcd then [SetCursor(60, 8)] else [SetCursor(60, 1)]
  }

  /** TIME_ZONE_TYPE of a named-zone build. */
  datatype ZoneBuild = BasicBuild | ExtendedBuild | BasicDbBuild | ExtendedDbBuild

  /** displayTimeZoneType: the label of the build's zone type. */
  function BuildLabel(build: ZoneBuild): string
  {
    match build
    case BasicBuild => "basic"
    case ExtendedBuild => "extended"
    case BasicDbBuild => "basicdb"
    case ExtendedDbBuild => "extendeddb"
  }

  /** The zone types displayAutoTimeZone can name: basic and extended, and the database types in a database build. */
  predicate NamesKind(build: ZoneBuild, kind: ZoneKind)
  {
    kind in {KindBasic, KindExtended} ||
    (build in {BasicDbBuild, ExtendedDbBuild} && kind in {KindBasicDb, KindExtendedDb})
  }

  /** A labelled setting on its own line (println of the value), or println(' ') while its edit blinks off. */
  function SettingLine(caption: string, show: bool, value: int): (r: seq<Op>)
    ensures |r| == 3 && r[0] == Print(caption) && r[2] == Newline
    ensures r[1] == PrintNum(value) <==> show
  {
    [Print(caption)] + (if show then [PrintNum(value), Newline] else [Print(" "), Newline])
  }
}
