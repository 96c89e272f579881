/**
 * The records of MultiZoneClock, built for named zones (TIME_ZONE_TYPE_BASIC
 * or TIME_ZONE_TYPE_EXTENDEDDB) and either an SSD1306 OLED or a PCD8544 LCD:
 * the Mode enum and its uint8 identifiers, the ClockInfo snapshot of the
 * four displayed zones, the RenderingInfo handed to the presenter, and the
 * StoredInfo record kept in the EEPROM.
 *
 * The LCD and OLED builds differ in their settings: the LCD has a backlight
 * level, a contrast and a bias, the OLED a contrast level and an invert
 * setting. The records below carry the fields of both builds; `lcd` says
 * which build a function describes, and the fields of the other build are
 * never read or written.
 */
module MultiZoneClockInfo {
  import opened AceTime

  /** The number of displayed zones (NUM_TIME_ZONES). */
  const NumZones := 4

  /**
   * The Mode enum of MultiZoneClock/config.h for named zones. The four
   * zone-name edits are one constructor with the zone's position; Other is
   * an identifier outside the enum, which every switch sends to its default.
   */
  datatype Mode =
    | Unknown
    | ViewDateTime | ViewTimeZone | ViewSettings | ViewSysclock | ViewAbout
    | ChangeYear | ChangeMonth | ChangeDay | ChangeHour | ChangeMinute | ChangeSecond
    | ChangeTimeZoneName(zone: int)
    | ChangeSettingsBacklight | ChangeSettingsContrast | ChangeSettingsBias | ChangeInvertDisplay
    | Other(id: int)

  /** The modes the enum of a build declares. */
  predicate InBuild(lcd: bool, m: Mode)
  {
    match m
    case ChangeTimeZoneName(k) => 0 <= k < NumZones
    case ChangeSettingsBacklight => lcd
    case ChangeSettingsBias => lcd
    case Other(_) => false
    case _ => true
  }

  /** The uint8 value of an enum member: declaration order, the settings edits after the zone edits. */
  function ModeId(lcd: bool, m: Mode): int
  {
    match m
    case Unknown => 0
    case ViewDateTime => 1
    case ViewTimeZone => 2
    case ViewSettings => 3
    case ViewSysclock => 4
    case ViewAbout => 5
    case ChangeYear => 6
    case ChangeMonth => 7
    case ChangeDay => 8
    case ChangeHour => 9
    case ChangeMinute => 10
    case ChangeSecond => 11
    case ChangeTimeZoneName(k) => 12 + k
    case ChangeSettingsBacklight => 16
    case ChangeSettingsContrast => if lcd then 17 else 16
    case ChangeSettingsBias => 18
    case ChangeInvertDisplay => if lcd then 19 else 17
    case Other(id) => id
  }

  /** The cast (Mode) mNavigator.modeId() of a build. */
  function ModeOf(lcd: bool, id: int): (m: Mode)
    ensures InBuild(lcd, m) || m == Other(id)
  {
    if id == 0 then Unknown
    else if id == 1 then ViewDateTime
    else if id == 2 then ViewTimeZone
    else if id == 3 then ViewSettings
    else if id == 4 then ViewSysclock
    else if id == 5 then ViewAbout
    else if id == 6 then ChangeYear
    else if id == 7 then ChangeMonth
    else if id == 8 then ChangeDay
    else if id == 9 then ChangeHour
    else if id == 10 then ChangeMinute
    else if id == 11 then ChangeSecond
    else if 12 <= id < 12 + NumZones then ChangeTimeZoneName(id - 12)
    else if lcd && id == 16 then ChangeSettingsBacklight
    else if lcd && id == 17 then ChangeSettingsContrast
    else if lcd && id == 18 then ChangeSettingsBias
    else if lcd && id == 19 then ChangeInvertDisplay
    else if !lcd && id == 16 then ChangeSettingsContrast
    else if !lcd && id == 17 then ChangeInvertDisplay
    else Other(id)
  }

  /** Every member of a build's enum is read back from its identifier. */
  lemma ModeIdRoundTrip(lcd: bool, m: Mode)
    requires InBuild(lcd, m)
    ensures ModeOf(lcd, ModeId(lcd, m)) == m
  {
  }

  /** Every identifier is read back from the member it is cast to, so the cast loses nothing. */
  lemma ModeOfRoundTrip(lcd: bool, id: int)
    ensures ModeId(lcd, ModeOf(lcd, id)) == id
  {
  }

  predicate IsDateEdit(m: Mode)
  {
    m in {ChangeYear, ChangeMonth, ChangeDay, ChangeHour, ChangeMinute, ChangeSecond}
  }

  /** The settings edits of a build, which change the committed snapshot in place. */
  predicate IsSettingsEdit(lcd: bool, m: Mode)
  {
    if lcd then m in {ChangeSettingsBacklight, ChangeSettingsContrast, ChangeSettingsBias}
    else m in {ChangeSettingsContrast, ChangeInvertDisplay}
  }

  /** The edits that work on the scratch snapshot: the date-time and the zone names. */
  predicate EditsScratch(m: Mode)
  {
    IsDateEdit(m) || m.ChangeTimeZoneName?
  }

  /**
   * The modes listed by handleModeButtonDoubleClick and
   * handleChangeButtonRelease. In the LCD build ChangeInvertDisplay is
   * declared but not listed.
   */
  predicate IsEdit(lcd: bool, m: Mode)
  {
    EditsScratch(m) || IsSettingsEdit(lcd, m)
  }

  /** ClockInfo::kTwelve and ClockInfo::kTwentyFour. */
  const Twelve := 0
  const TwentyFour := 1

  /** ClockInfo::kInvertDisplayOff, On and Auto. */
  const InvertOff := 0
  const InvertOn := 1
  const InvertAuto := 2

  /**
   * The snapshot: the 12/24 mode, the LCD's backlight level, contrast and
   * bias, the OLED's contrast level and invert setting, the four displayed
   * zones (their TimeZoneData), the time in zone 0, and the system clock's
   * sync status (the two sync times and the skew in seconds, and the code).
   */
  datatype ClockInfo = ClockInfo(
    hourMode: int,
    backlightLevel: int, contrast: int, bias: int,
    contrastLevel: int, invertDisplay: int,
    zones: seq<TimeZone>, dateTime: ZonedDateTime,
    prevSync: int, nextSync: int, clockSkew: int, syncStatusCode: int)

  /** The default-constructed snapshot. */
  const ZeroClockInfo := ClockInfo(0, 0, 0, 0, 0, 0,
    [ZeroTimeZone, ZeroTimeZone, ZeroTimeZone, ZeroTimeZone], ZeroDateTime, 0, 0, 0, 0)

  /** What setRenderingInfo receives: the mode, the folded blink flag, and a snapshot. */
  datatype RenderingInfo = RenderingInfo(mode: Mode, blinkShowState: bool, clockInfo: ClockInfo)

  const ZeroRenderingInfo := RenderingInfo(Unknown, false, ZeroClockInfo)

  /** What the EEPROM keeps: the 12/24 mode, the settings of the build and the four zones. */
  datatype StoredInfo = StoredInfo(
    hourMode: int,
    backlightLevel: int, contrast: int, bias: int,
    contrastLevel: int, invertDisplay: int,
    zones: seq<TimeZone>)

  /** readStoredInfo(): a record that passed the store's CRC check, or none. */
  datatype StoreRead = StoreOk(stored: StoredInfo) | StoreBad

  /**
   * storedInfoFromClockInfo: the 12/24 mode, the zones and the settings of
   * the build; the fields the build's record does not have are 0.
   */
  function StoredOf(lcd: bool, c: ClockInfo): StoredInfo
  {
    if lcd then StoredInfo(c.hourMode, c.backlightLevel, c.contrast, c.bias, 0, 0, c.zones)
    else StoredInfo(c.hourMode, 0, 0, 0, c.contrastLevel, c.invertDisplay, c.zones)
  }

  /** clockInfoFromStoredInfo: the stored fields of the build are replaced, nothing else. */
  function WithStored(lcd: bool, c: ClockInfo, s: StoredInfo): (r: ClockInfo)
    ensures r.hourMode == s.hourMode && r.zones == s.zones
    ensures lcd ==> (r.backlightLevel, r.contrast, r.bias) == (s.backlightLevel, s.contrast, s.bias) &&
                    (r.contrastLevel, r.invertDisplay) == (c.contrastLevel, c.invertDisplay)
    ensures !lcd ==> (r.contrastLevel, r.invertDisplay) == (s.contrastLevel, s.invertDisplay) &&
                     (r.backlightLevel, r.contrast, r.bias) == (c.backlightLevel, c.contrast, c.bias)
    ensures (r.dateTime, r.prevSync, r.nextSync, r.clockSkew, r.syncStatusCode) ==
            (c.dateTime, c.prevSync, c.nextSync, c.clockSkew, c.syncStatusCode)
  {
    if lcd then
      c.(hourMode := s.hourMode, zones := s.zones,
         backlightLevel := s.backlightLevel, contrast := s.contrast, bias := s.bias)
    else
      c.(hourMode := s.hourMode, zones := s.zones,
         contrastLevel := s.contrastLevel, invertDisplay := s.invertDisplay)
  }

  /** Restoring what was stored from a snapshot gives the snapshot back. */
  lemma StoredRoundTrip(lcd: bool, c: ClockInfo)
    ensures WithStored(lcd, c, StoredOf(lcd, c)) == c
  {
  }

  /** A record the build wrote itself (the other build's fields 0) survives a restore and a store unchanged. */
  lemma RestoredRoundTrip(lcd: bool, c: ClockInfo, s: StoredInfo)
    requires lcd ==> s.contrastLevel == 0 && s.invertDisplay == 0
    requires !lcd ==> s.backlightLevel == 0 && s.contrast == 0 && s.bias == 0
    ensures StoredOf(lcd, WithStored(lcd, c, s)) == s
  {
  }

  /** The system clock's readings that updateDateTime copies into the snapshot. */
  datatype ClockStatus = ClockStatus(
    secondsSinceSyncAttempt: int, secondsToSyncAttempt: int, clockSkew: int, syncStatusCode: int)
}
