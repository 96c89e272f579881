/**
 * The records and mode identifiers of WorldClockLcd (WorldClockLcd/config.h,
 * RenderingInfo.h, StoredInfo.h), built for named zones
 * (TIME_ZONE_TYPE_BASIC) and either an SSD1306 OLED or a PCD8544 LCD.
 *
 * The LCD build has a backlight level, a contrast and a bias; the OLED
 * build a contrast level. The records below carry the fields of both; `lcd`
 * says which build a function describes, and the fields of the other build
 * are never read or written. ClockInfo.h is not part of this model: its
 * fields are those the controller and the presenter read.
 */
module WorldClockLcdInfo {
  import opened AceTime

  /** The number of displayed zones (NUM_TIME_ZONES). */
  const NumZones := 4

  /** The uint8 mode identifiers of config.h. */
  const ModeUnknown := 0
  const ModeDateTime := 1
  const ModeTimeZone := 2
  const ModeSettings := 3
  const ModeAbout := 4
  const ModeChangeYear := 10
  const ModeChangeMonth := 11
  const ModeChangeDay := 12
  const ModeChangeHour := 13
  const ModeChangeMinute := 14
  const ModeChangeSecond := 15
  /** MODE_CHANGE_TIME_ZONE0_NAME; zone k is edited in mode 20 + k. */
  const ModeChangeTimeZone0Name := 20
  /** The LCD's MODE_CHANGE_SETTINGS_BACKLIGHT, CONTRAST and BIAS. */
  const ModeChangeSettingsBacklight := 30
  const ModeChangeSettingsLcdContrast := 31
  const ModeChangeSettingsBias := 32
  /** The OLED's MODE_CHANGE_SETTINGS_CONTRAST. */
  const ModeChangeSettingsOledContrast := 30

  /** The six modes that edit the date and time. */
  predicate IsDateTimeEdit(m: int)
  {
    ModeChangeYear <= m <= ModeChangeSecond
  }

  /** The four zone-name edits. */
  predicate IsZoneEdit(m: int)
  {
    ModeChangeTimeZone0Name <= m < ModeChangeTimeZone0Name + NumZones
  }

  /** The settings edits of a build, which change the committed snapshot in place. */
  predicate IsSettingsEdit(lcd: bool, m: int)
  {
    if lcd then ModeChangeSettingsBacklight <= m <= ModeChangeSettingsBias
    else m == ModeChangeSettingsOledContrast
  }

  /** The edits that work on the scratch snapshot. */
  predicate EditsScratch(m: int)
  {
    IsDateTimeEdit(m) || IsZoneEdit(m)
  }

  predicate IsEdit(lcd: bool, m: int)
  {
    EditsScratch(m) || IsSettingsEdit(lcd, m)
  }

  /** StoredInfo::kTwelve and kTwentyFour. */
  const Twelve := 0
  const TwentyFour := 1

  /**
   * The snapshot: the 12/24 mode, the four displayed zones (their
   * TimeZoneData), the time in zone 0, and the settings of both builds.
   */
  datatype ClockInfo = ClockInfo(
    hourMode: int, zones: seq<TimeZone>, dateTime: ZonedDateTime,
    backlightLevel: int, contrast: int, bias: int, contrastLevel: int)

  /** The zero-initialised snapshot (the controller is a global). */
  const ZeroClockInfo := ClockInfo(0, [ZeroTimeZone, ZeroTimeZone, ZeroTimeZone, ZeroTimeZone], ZeroDateTime, 0, 0, 0, 0)

  /** What the EEPROM keeps: the 12/24 mode, the settings of the build and the zones. */
  datatype StoredInfo = StoredInfo(
    hourMode: int, backlightLevel: int, contrast: int, bias: int, contrastLevel: int,
    zones: seq<TimeZone>)

  /** storedInfoFromClockInfo: the 12/24 mode, the zones and the settings of the build; the other build's fields are 0. */
  function StoredOf(lcd: bool, c: ClockInfo): StoredInfo
  {
    if lcd then StoredInfo(c.hourMode, c.backlightLevel, c.contrast, c.bias, 0, c.zones)
    else StoredInfo(c.hourMode, 0, 0, 0, c.contrastLevel, c.zones)
  }

  /** clockInfoFromStoredInfo: the stored fields of the build are replaced, nothing else. */
  function WithStored(lcd: bool, c: ClockInfo, s: StoredInfo): (r: ClockInfo)
    ensures r.hourMode == s.hourMode && r.zones == s.zones && r.dateTime == c.dateTime
    ensures lcd ==> (r.backlightLevel, r.contrast, r.bias, r.contrastLevel) ==
                    (s.backlightLevel, s.contrast, s.bias, c.contrastLevel)
    ensures !lcd ==> (r.backlightLevel, r.contrast, r.bias, r.contrastLevel) ==
                     (c.backlightLevel, c.contrast, c.bias, s.contrastLevel)
  {
    if lcd then c.(hourMode := s.hourMode, zones := s.zones,
                   backlightLevel := s.backlightLevel, contrast := s.contrast, bias := s.bias)
    else c.(hourMode := s.hourMode, zones := s.zones, contrastLevel := s.contrastLevel)
  }

  /** Restoring what was stored from a snapshot gives the snapshot back. */
  lemma StoredRoundTrip(lcd: bool, c: ClockInfo)
    ensures WithStored(lcd, c, StoredOf(lcd, c)) == c
  {
  }

  /** A record the build wrote itself survives a restore and a store unchanged. */
  lemma RestoredRoundTrip(lcd: bool, c: ClockInfo, s: StoredInfo)
    requires lcd ==> s.contrastLevel == 0
    requires !lcd ==> s.backlightLevel == 0 && s.contrast == 0 && s.bias == 0
    ensures StoredOf(lcd, WithStored(lcd, c, s)) == s
  {
  }

  /** The arguments of one setRenderingInfo() call: the mode, the two blink flags and the snapshot. */
  datatype Handover = Handover(mode: int, suppressBlink: bool, blinkShowState: bool, clockInfo: ClockInfo)

  const ZeroHandover := Handover(ModeUnknown, false, false, ZeroClockInfo)
}
