# Clock controllers and presenters, modelled in Dafny

The clocks repository holds about a dozen small clock applications: two Go LED
clocks, and C++ Arduino clocks with LED modules, OLED and LCD screens
(OneZoneClock, MultiZoneClock, WorldClock, WorldClockLcd, OledClock,
MedMinder, ChristmasClock, LedClock, LedClockTiny), plus two prototypes at
the top of the repository. Every one of them repeats the same design, and
that design is what this project models.

- The **Controller** is an event-driven state machine. It keeps a committed
  ClockInfo snapshot and a scratch copy. A short press of the mode button
  steps to the next mode of the current ring or group. A long press enters
  an edit, copying the committed snapshot into the scratch one, or commits
  the edit, writing the clock and the EEPROM. A change press moves exactly
  one field with wrap-around, and suppresses blinking until the release. A
  periodic update reads the clock, runs the blink timer and hands a
  snapshot to the presenter.
- The **Presenter** is a dirty-checking renderer. It remembers the snapshot
  it drew last, clears the screen only when the mode changes, redraws only
  when something it shows changed, pushes display settings only when they
  changed, and hides the field being edited while the blink is off and not
  suppressed.

Each source file of the core is one Dafny module (one `.dfy` file): a
`class` with the fields the source updates in place, next to the pure
functions that specify its steps. A state-changing method states its new
state as a step function of the old one (`State() == ChangeStep(lib,
old(State()))`), and keeps the controller invariant `Valid()`; what the
source promises is proved as lemmas about those step functions: mode rings
and their periods, wrap-around bounds and periods of every field increment,
the scratch copy on edit entry, commit and discard, what the presenter is
handed, and that every presenter draws nothing for a frame drawn twice.

Shared pieces have their own modules:

- `AceTime`: the date-time and zone values, and a `TimeLib` record of
  functions standing for the library calls (epoch seconds, zone conversion,
  normalization, the field increments, the zone registry), so every
  property holds for any implementation of them.
- `AceCommon`: incrementMod and incrementModOffset.
- `Widths`: the fixed-width wrap-around and truncating division of Go and
  C++.
- `Blink`: the uint16 blink timer.
- `Cycles` and `ModeGroups`: mode rings and the two-level mode tree.
- `Display`, `ScreenDrivers` and `TextScreens`: the display driver calls,
  modelled as an appended trace of `Op` values, and the text lines shared
  by the OLED and LCD presenters.
- `ZoneEdits`, `TimePeriods`, `LedBrightness` and `Ds3231`: zone and year
  edits, MedMinder's time periods, the LED brightness range, and the RTC
  driver's records.

Every C++ application is modelled in the configuration it builds with by
default: named (basic) zones, no temperature sensor, an OLED screen where
the application offers a choice. MultiZoneClock and WorldClockLcd are
modelled for both their LCD and OLED builds, and LedClockTiny uses its
fixed-offset zone. The clock, `millis()`, the RTC, the EEPROM and the
display are outside the model. What is read from them is a parameter of
the operation that reads it, and what is written to them is appended to a
trace field of the class.

## Model

| member | source | states |
|---|---|---|
| AceCommon.IncrementMod | LedClockTiny/Controller.h:259-261 | incrementMod(x, m): one step forward, back to 0 after m - 1. |
| AceCommon.IncrementModOffset | LedClock/Controller.h:248-256 | incrementModOffset(x, m, offset): the same counter over [offset, offset + m). |
| AceCommon.IncrementModOffsetU8 | ChristmasClock/Controller.h:272-279 | incrementModOffset on a uint8_t: the subtraction, the increment and the addition each wrap at 256; on a value inside [offset, offset + m) it is the plain counter. |
| AceCommon.IncrementModTimesBelow | LedClockTiny/Controller.h:259-261 | k presses from x add exactly k while x + k stays below the modulus (no wrap yet). |
| AceCommon.IncrementModPeriod | LedClockTiny/Controller.h:259-261 | m presses of incrementMod bring any in-range value back to itself. |
| AceCommon.IncrementModNoShorterPeriod | LedClockTiny/Controller.h:259-261 | Fewer than m presses never bring an in-range value back. |
| AceCommon.IncrementModOffsetShift | ChristmasClock/Controller.h:272-279 | incrementModOffset is incrementMod shifted by the offset. |
| AceTime.WithSecond | MultiZoneClock/Controller.h:372-377 | ZonedDateTime::second(s): only the second field changes. |
| AceTime.CompareLocalDate | MultiZoneClock/Presenter.h:347-362 | LocalDate::compareTo on the local (year, month, day): -1, 0 or 1. |
| AceTime.CompareLocalDateAntisymmetric | MultiZoneClock/Presenter.h:347-362 | Comparing the other way round flips the sign. |
| AceTime.CompareLocalDateTransitive | MultiZoneClock/Presenter.h:347-362 | The comparison is transitive, so it orders local dates. |
| Blink.Elapsed | MultiZoneClock/Controller.h:583-584 | The elapsed time is a uint16; when the start is not after the uint16 reading it is their plain difference. |
| Blink.ElapsedAcrossWrap | MultiZoneClock/Controller.h:583-584 | The uint16 difference measures any interval shorter than 65536 ms exactly, however many times the millisecond counter has wrapped. |
| Blink.Update | MultiZoneClock/Controller.h:582-592 | updateBlinkState() at time millis() == nowMillis. |
| Blink.RestartShows | MultiZoneClock/Controller.h:582-592 | After a restart, a second call at the same instant shows the field. |
| Blink.PhaseDecidesShowState | MultiZoneClock/Controller.h:582-592 | Within a cycle, the show state depends on the phase only, not on what it was before. |
| Blink.StartStaysInRange | MultiZoneClock/Controller.h:582-592 | The timer's start is always a uint16 value once it has restarted. |
| ChristmasClockController.ViewCyclePeriod | ChristmasClock/Controller.h:84-137 | Eight presses bring a view back, and no fewer do. |
| ChristmasClockController.EditCyclePeriod | ChristmasClock/Controller.h:84-137 | Six presses bring a date or time edit back, and no fewer do. |
| ChristmasClockController.LongPressMode | ChristmasClock/Controller.h:139-222 | modeButtonLongPress's mode: a view enters the edit of its first field (the countdown and the weekday have none), the brightness view the brightness edit; an edit goes back to its view, the hour and the minute both to the hour-minute view. |
| ChristmasClockController.LongPressRoundTrip | ChristmasClock/Controller.h:139-222 | Two long presses come back to the view they left. |
| ChristmasClockController.ModePressStep | ChristmasClock/Controller.h:84-137 | modeButtonPress: the next mode of the ring, nothing else. |
| ChristmasClockController.SaveDateTimeStep | ChristmasClock/Controller.h:376-387 | saveDateTime: the scratch date-time is normalized in place and the clock set to it. |
| ChristmasClockController.LongPressStep | ChristmasClock/Controller.h:139-222 | modeButtonLongPress: entering a date or time edit copies the committed snapshot into the scratch one, an unset clock replaced by epoch 0, and re-arms the seconds; leaving one saves the scratch date-time to the clock; leaving the brightness edit writes the settings to the EEPROM. |
| ChristmasClockController.ChangeField | ChristmasClock/Controller.h:233-287 | changeButtonPress's switch: in an edit the blink is held; a date or time edit moves its field of the scratch date-time (the second edit also stops the second following the clock); the brightness edit steps the committed brightness through the module's levels. In a view nothing changes. |
| ChristmasClockController.ReleaseStep | ChristmasClock/Controller.h:297-316 | changeButtonRelease: the blink resumes in the edit modes. |
| ChristmasClockController.DateTimeStep | ChristmasClock/Controller.h:319-340 | updateDateTime: the committed time is read from the clock in the committed zone; in a date or time edit whose second was not cleared, the scratch second follows it. |
| ChristmasClockController.RenderStep | ChristmasClock/Controller.h:354-373 | updateRenderingInfo: the scratch snapshot in the date and time edits, the committed one otherwise (so the brightness edit shows the committed brightness); the blink flag is `suppress || show`. |
| ChristmasClockController.UpdateStep | ChristmasClock/Controller.h:76-82 | update: nothing in kUnknown; otherwise read the time, run the blink timer, hand the presenter its info and call display(). |
| ChristmasClockController.RestoreStep | ChristmasClock/Controller.h:50-70 | setup's restore: a valid stored record supplies the hour mode, the clamped brightness and the zone; otherwise 24-hour mode and the initial zone are set (the brightness keeps its initial value) and written. |
| ChristmasClockController.BrightnessPressIsShown | ChristmasClock/Controller.h:233-287 | A brightness press in the brightness edit is shown at once: the presenter gets the committed snapshot with the next level, in range, and the blink held. |
| ChristmasClockController.ChosenBrightnessSurvivesReboot | ChristmasClock/Controller.h:50-70 | A brightness chosen in the brightness edit and saved by the long press comes back unchanged from the EEPROM on the next boot. |
| ChristmasClockController.ClearedSecondStaysZero | ChristmasClock/Controller.h:319-340 | Once the second was zeroed in the second edit, the scratch second no longer follows the clock: the presenter keeps seeing 0. |
| ChristmasClockController.EditedSecondFollowsClock | ChristmasClock/Controller.h:319-340 | Until then, in every date or time edit the scratch second is the clock's current second and the other fields are the scratch ones. |
| ChristmasClockController.EnteringEditRearmsSecond | ChristmasClock/Controller.h:139-222 | Entering an edit re-arms the seconds, however the previous edit ended. |
| ChristmasClockController.PressReleaseUnsuppresses | ChristmasClock/Controller.h:297-316 | A press and its release in an edit leave the blink running again. |
| ChristmasClockController.EnterAndLeaveWritesShownTime | ChristmasClock/Controller.h:139-222 | Entering an edit on a set clock and leaving it straight away sets the clock to the normalized time shown when the edit was entered; an unset clock is set to the normalized epoch 0 in its zone. |
| ChristmasClockController.Controller.constructor | ChristmasClock/Controller.h:22-48 | The constructor: the countdown view, the blink shown. |
| ChristmasClockController.Controller.Setup | ChristmasClock/Controller.h:50-70 | setup: restore the stored info, or write the defaults; then read the time. |
| ChristmasClockController.Controller.Update | ChristmasClock/Controller.h:76-82 | update(): the new state is UpdateStep of the old one (read the clock unless editing, run the blink timer, hand over the rendering info), and the invariant holds. |
| ChristmasClockController.Controller.ModeButtonPress | ChristmasClock/Controller.h:84-137 | modeButtonPress: the new state is ModePressStep of the old one, and the invariant holds. |
| ChristmasClockController.Controller.ModeButtonLongPress | ChristmasClock/Controller.h:139-222 | modeButtonLongPress: the new state is LongPressStep of the old one, and the invariant holds. |
| ChristmasClockController.Controller.InitChangingClock | ChristmasClock/Controller.h:226-231 | initChangingClock: an unset scratch clock starts at epoch 0 in its zone. |
| ChristmasClockController.Controller.ChangeButtonPress | ChristmasClock/Controller.h:233-287 | changeButtonPress: change the field, then update the display at once. |
| ChristmasClockController.Controller.ChangeSwitch | ChristmasClock/Controller.h:233-287 | The switch of changeButtonPress, before its update(). |
| ChristmasClockController.Controller.ChangeButtonRepeatPress | ChristmasClock/Controller.h:289-295 | changeButtonRepeatPress: the change of ChangeField, then the update() that reads the clock, runs the blink timer and redraws (UpdateStep); the invariant holds. |
| ChristmasClockController.Controller.ChangeButtonRelease | ChristmasClock/Controller.h:297-316 | changeButtonRelease: the new state is ReleaseStep of the old one. |
| ChristmasClockController.Controller.UpdateDateTime | ChristmasClock/Controller.h:319-340 | updateDateTime: the new state is DateTimeStep of the old one. |
| ChristmasClockController.Controller.UpdateBlinkState | ChristmasClock/Controller.h:342-352 | updateBlinkState: only the blink timer moves, as Blink.Update says. |
| ChristmasClockController.Controller.UpdateRenderingInfo | ChristmasClock/Controller.h:354-373 | updateRenderingInfo: the new state is RenderStep of the old one. |
| ChristmasClockController.Controller.SaveDateTime | ChristmasClock/Controller.h:376-387 | saveDateTime: normalize the scratch date-time in place and set the clock to it. |
| ChristmasClockController.Controller.SaveClockInfo | ChristmasClock/Controller.h:390-393 | saveClockInfo: commit the scratch snapshot and persist it (no handler calls it). |
| ChristmasClockController.Controller.SetupClockInfo | ChristmasClock/Controller.h:412-415 | setupClockInfo: 24-hour mode and the initial zone in the committed snapshot, nothing else. |
| ChristmasClockController.Controller.PreserveClockInfo | ChristmasClock/Controller.h:418-425 | preserveClockInfo: the record of the given snapshot is appended to the EEPROM writes, nothing else. |
| ChristmasClockInfo.StoredOf | ChristmasClock/Controller.h:428-433 | storedInfoFromClockInfo: the three persisted fields. |
| ChristmasClockInfo.WithStored | ChristmasClock/Controller.h:396-409 | clockInfoFromStoredInfo: the persisted fields replaced, the brightness clamped into the LED module's range [lo, hi]; everything else kept. |
| ChristmasClockInfo.StoredRoundTrip | ChristmasClock/Controller.h:396-409 | A snapshot whose brightness is in range is restored from its own record unchanged. |
| ChristmasClockPresenter.ShouldShowFor | ChristmasClock/Presenter.h:72-76 | shouldShowFor: a field is hidden only in its own mode, while blinking off and not suppressed. |
| ChristmasClockPresenter.SettingsOps | ChristmasClock/Presenter.h:89-94 | updateDisplaySettings: the brightness is pushed on the first frame and whenever it changed. |
| ChristmasClockPresenter.Field2 | ChristmasClock/Presenter.h:172-233 | A two-digit field: its value, or two blank digits. |
| ChristmasClockPresenter.CountdownScreen | ChristmasClock/Presenter.h:166-170 | displayCountdown: the days until 25 December as four digits padded with blanks, the signed count cast to uint16; the colon off. |
| ChristmasClockPresenter.HourMinuteScreen | ChristmasClock/Presenter.h:172-187 | displayHourMinute: the hour and the minute, each blanked in its own edit; the colon on. |
| ChristmasClockPresenter.SecondScreen | ChristmasClock/Presenter.h:189-200 | displaySecond: two blanks, then the second and the colon, or two more blanks. |
| ChristmasClockPresenter.YearScreen | ChristmasClock/Presenter.h:202-209 | displayYear: the year as four digits, or a cleared display; the colon off. |
| ChristmasClockPresenter.RightFieldScreen | ChristmasClock/Presenter.h:211-221 | displayMonth and displayDay: two blanks, the value or two blanks, the colon off. |
| ChristmasClockPresenter.WeekdayScreen | ChristmasClock/Presenter.h:139-143 | The weekday screen: the display cleared and the short weekday name. |
| ChristmasClockPresenter.TimeZoneScreen | ChristmasClock/Presenter.h:235-260 | displayTimeZone: when shown, a basic or extended zone's abbreviation at the current instant, any other zone "----"; when hidden a cleared display. The colon off. |
| ChristmasClockPresenter.BrightnessScreen | ChristmasClock/Presenter.h:262-278 | displayBrightness: "Br", the colon on, then the level padded with a blank, or two blanks. |
| ChristmasClockPresenter.DataOps | ChristmasClock/Presenter.h:98-163 | displayData: home the cursor, then the mode's screen. |
| ChristmasClockPresenter.FrameOps | ChristmasClock/Presenter.h:50-60 | updateDisplay's output: a clear iff the mode changed, then the settings and the data iff the info changed. |
| ChristmasClockPresenter.DisplayIdempotent | ChristmasClock/Presenter.h:50-60 | A frame drawn twice in a row: the second draws nothing. |
| ChristmasClockPresenter.BlinkInvisibleInViews | ChristmasClock/Presenter.h:72-76 | In a view every field is shown, so the blink flags cannot change the picture there, although needsUpdate redraws for them. |
| ChristmasClockPresenter.HourAndMinuteBlinkApart | ChristmasClock/Presenter.h:172-187 | The hour and the minute blink independently: in the hour edit the minute is always drawn and the hour is blank exactly while blinking off; in the minute edit the other way round. The colon stays on. |
| ChristmasClockPresenter.SecondColonOnlyWhenShown | ChristmasClock/Presenter.h:189-200 | In the second edit the colon is drawn only with the second. |
| ChristmasClockPresenter.HiddenYearClears | ChristmasClock/Presenter.h:202-209 | A hidden year clears the whole display, and the colon is off. |
| ChristmasClockPresenter.Presenter.constructor | ChristmasClock/Presenter.h:33-48 | Presenter(): the current and previous snapshots start as the zero-initialized ClockInfo, nothing drawn. |
| ChristmasClockPresenter.Presenter.UpdateDisplay | ChristmasClock/Presenter.h:50-60 | updateDisplay: draw the frame, then remember the info, whether or not it was drawn. |
| ChristmasClockPresenter.Presenter.SetClockInfo | ChristmasClock/Presenter.h:62-64 | setClockInfo: the snapshot to draw next is the one given; nothing else changes. |
| GoController.ViewCyclePeriod | controller.go:34-69 | Eight presses walk the view ring and come back, and no fewer do. |
| GoController.EditCyclePeriod | controller.go:34-69 | Six presses walk the edit ring and come back, and no fewer do. |
| GoController.LongPressMode | controller.go:71-125 | The mode after a long press of the Mode button; ViewTemperature has none. |
| GoController.LongPressRoundTrip | controller.go:71-125 | Into an edit and back out returns to the view; ChangeMinute comes back as ChangeHour. |
| GoController.Incremented | controller.go:127-181 | The scratch snapshot after a change press in mode m: only m's field moves. |
| GoController.IncrementedInRange | controller.go:127-181 | Every edited field stays inside its range after a press, whatever it held before. |
| GoController.Committed | controller.go:237-248 | saveClockInfo's committed snapshot, as in the later Go clock. |
| GoController.RtcDateTimeOf | controller.go:250-275 | saveRTC's register image: the century flag is set exactly when the year is 2100 or later. |
| GoController.RtcRoundTrip | controller.go:198-275 | Reading back ignores the century flag, and still recovers years 2000 to 2255. |
| GoController.AdjustEffects | controller.go:198-217 | SetupSystemTimeFromRTC's effect: nothing on a read error, otherwise one adjustment of the system clock to the RTC's time. |
| GoController.Controller.constructor | controller.go:19-32 | NewController: 24-hour mode, the hour-minute view and brightness 1 in the committed info; a zero scratch info; no effects; the invariant holds. |
| GoController.Controller.UpdatePresenter | controller.go:278-289 | updatePresenter: the presenter holds the snapshot Displayed() chooses (the scratch one in the edit modes). |
| GoController.Controller.HandleModePress | controller.go:34-69 | HandleModePress: the committed mode moves to NextMode, copied into the scratch snapshot; nothing else changes, and the presenter is updated. |
| GoController.Controller.SaveRtc | controller.go:250-275 | saveRTC: one RTC write of the register image of the snapshot's time in UTC. |
| GoController.Controller.SetupSystemTimeFromRtc | controller.go:198-217 | SetupSystemTimeFromRTC: the effects AdjustEffects gives for the RTC read. |
| GoController.Controller.SaveClockInfo | controller.go:237-248 | saveClockInfo: the committed snapshot becomes Committed(...) of the scratch one; the RTC is written with its UTC time and the system clock adjusted from it. |
| GoController.Controller.HandleModeLongPress | controller.go:71-125 | HandleModeLongPress: the mode becomes LongPressMode of the old one in both snapshots; entering an edit copies the committed snapshot into the scratch one; leaving one commits it and writes the RTC. |
| GoController.Controller.HandleChangePress | controller.go:127-181 | HandleChangePress: the blink is held; the scratch snapshot's field for the mode moves as Incremented says; the LED module is flushed at once. |
| GoController.Controller.HandleChangeRelease | controller.go:183-186 | HandleChangeRelease: the blink resumes in both snapshots; nothing else changes. |
| GoController.Controller.SyncSystemTime | controller.go:188-195 | SyncSystemTime: the committed time is the system time in the selected zone; nothing else changes. |
| GoController.Controller.Blink | controller.go:219-223 | Blink: both snapshots flip their blink flag; nothing else changes. |
| GoController.Controller.ReadTemp | controller.go:225-233 | ReadTemp: a good reading replaces both temperatures, a failed one changes nothing. |
| GoMain.NotDueRightAfter | main.go:190-197 | A task that has just run is not due again at the same instant, nor before threshold ms. |
| GoMain.DueAfterInterval | main.go:190-197 | It is due once more than threshold ms (and less than 65536 ms) have passed, across any wrap. |
| GoMain.NextClockMode | main.go:99-102 | nextClockMode: the next of the five modes, the last one wrapping to 0; the result is always a mode. |
| GoMain.ModeCyclePeriod | main.go:99-102 | Five mode presses return to the starting mode, and no fewer do. |
| GoMain.Frame | main.go:104-131 | The writes of updateDisplay for a snapshot; a mode outside 0..4 draws nothing. |
| GoMain.RtcYear | main.go:64-85 | The local year syncRTC builds: 2000 + int16(dt.Year), itself an int16. |
| GoMain.MainLoop.constructor | main.go:91-97 | The globals at start: the hour-minute mode, an all-zero previous snapshot, the three timers at 0, nothing drawn or adjusted. |
| GoMain.MainLoop.Setup | main.go:203-212 | setupDisplay and setupRTC, then the first flush of main(). |
| GoMain.MainLoop.FlushDisplay | main.go:40-46 | flushDisplay: when more than the interval passed since the last flush (uint16 ms), the module is flushed and the timer restarted; otherwise nothing changes. |
| GoMain.MainLoop.UpdateDisplay | main.go:104-131 | updateDisplay: nothing when the snapshot equals the last one drawn; otherwise remember it and draw Frame of it. |
| GoMain.MainLoop.SyncRtc | main.go:64-85 | syncRTC: when due, the timer restarts before the RTC is read, so a read error waits a full interval too. |
| GoMain.MainLoop.NextMode | main.go:99-102 | nextClockMode: the mode moves to NextClockMode of the old one, nothing else changes. |
| GoMain.MainLoop.Handle | main.go:151-170 | Only a release of the Mode button does anything: it moves to the next mode. |
| GoMain.MainLoop.CheckButtons | main.go:190-197 | checkButtons: when due, poll the Mode button and then the Change button. |
| GoPresenter.WithEditedField | presenter.go:29-113 | The snapshot with the field its edit mode blinks set to a new value, everything else kept. |
| GoPresenter.Frame | presenter.go:29-113 | The calls UpdateDisplay makes for a snapshot; abbrev is the zone abbreviation. |
| GoPresenter.HiddenFieldNotDrawn | presenter.go:29-113 | While an edit mode's field is hidden, the frame does not depend on the field. |
| GoPresenter.ShownFieldDrawnAsView | presenter.go:29-113 | While the field is shown, each drawn edit mode draws exactly its view's frame. |
| GoPresenter.ShownFieldDrawn | presenter.go:29-113 | While shown, a different month, day, hour, minute or second gives a different frame. |
| GoPresenter.YearDrawnModulo | presenter.go:37-44 | The year is drawn as uint16, so two years 65536 apart look the same. |
| GoPresenter.Presenter.constructor | presenter.go:15-23 | NewPresenter: both infos zero, nothing drawn. |
| GoPresenter.Presenter.SetClockInfo | presenter.go:25-27 | SetClockInfo: the snapshot to draw next is the one given; nothing else changes. |
| GoPresenter.Presenter.UpdateDisplay | presenter.go:29-113 | Nothing when the snapshot equals the last one drawn; otherwise remember it and draw it. |
| LedBrightness.Normalize | ChristmasClock/Controller.h:436-443 | normalizeBrightness: below the minimum it is raised to it, above the maximum lowered to it. |
| LedBrightness.NormalizeIdempotent | ChristmasClock/Controller.h:436-443 | A normalized level is left alone by a second normalization. |
| LedBrightness.Next | ChristmasClock/Controller.h:272-279 | The change press in the brightness edit: the uint8 counter over `levels` levels from `lo`, then clamped. |
| LedBrightness.NextWalksRange | ChristmasClock/Controller.h:272-279 | When the module has exactly `levels` levels from `lo` to `hi`, a press steps up by one and wraps from the brightest level to the dimmest. |
| LedBrightness.NextPeriod | ChristmasClock/Controller.h:272-279 | Then `levels` presses bring any level back, and no fewer do. |
| LedClockController.ViewCyclePeriod | LedClock/Controller.h:78-128 | Seven presses bring a view back, and no fewer do. |
| LedClockController.EditCyclePeriod | LedClock/Controller.h:78-128 | Six presses bring a date or time edit back, and no fewer do. |
| LedClockController.LongPressMode | LedClock/Controller.h:130-208 | modeButtonLongPress's mode: a view enters the edit of its first field (the weekday has none), the brightness view the brightness edit; an edit goes back to its view, the hour and the minute both to the hour-minute view. |
| LedClockController.LongPressRoundTrip | LedClock/Controller.h:130-208 | Two long presses come back to the view they left. |
| LedClockController.ModePressStep | LedClock/Controller.h:78-128 | modeButtonPress: the next mode of the ring, nothing else. |
| LedClockController.SaveDateTimeStep | LedClock/Controller.h:357-369 | saveDateTime: the scratch date-time is normalized in place and the clock set to it. |
| LedClockController.LongPressStep | LedClock/Controller.h:130-208 | modeButtonLongPress: entering a date or time edit copies the committed snapshot into the scratch one as it is and re-arms the seconds; leaving one saves the scratch date-time to the clock; leaving the brightness edit writes the settings to the EEPROM. |
| LedClockController.ChangeField | LedClock/Controller.h:210-264 | changeButtonPress's switch: in an edit the blink is held; a date or time edit moves its field of the scratch date-time (the second edit also stops the second following the clock); the brightness edit steps the committed brightness through the module's levels. In a view nothing changes. |
| LedClockController.ReleaseStep | LedClock/Controller.h:274-294 | changeButtonRelease: the blink resumes in the modes of its switch. |
| LedClockController.DateTimeStep | LedClock/Controller.h:297-318 | updateDateTime: the committed time is read from the clock in the committed zone; in a date or time edit whose second was not cleared, the scratch second follows it. |
| LedClockController.RenderStep | LedClock/Controller.h:332-354 | updateRenderingInfo: the scratch snapshot in the modes of its switch, the committed one otherwise (so the brightness edit shows the committed brightness); the blink flag is `suppress || show`. |
| LedClockController.UpdateStep | LedClock/Controller.h:70-76 | update: nothing in kUnknown; otherwise read the time, run the blink timer, hand the presenter its info and call display(). |
| LedClockController.RestoreStep | LedClock/Controller.h:44-64 | setup's restore: a valid stored record supplies the hour mode, the clamped brightness and the zone; otherwise 24-hour mode and the initial zone are set (the brightness keeps its initial value) and written. |
| LedClockController.BrightnessPressIsShown | LedClock/Controller.h:210-264 | A brightness press in the brightness edit is shown at once: the presenter gets the committed snapshot with the next level, in range, and the blink held. |
| LedClockController.ChosenBrightnessSurvivesReboot | LedClock/Controller.h:44-64 | A brightness chosen in the brightness edit and saved by the long press comes back unchanged from the EEPROM on the next boot. |
| LedClockController.ClearedSecondStaysZero | LedClock/Controller.h:297-318 | Once the second was zeroed in the second edit, the scratch second no longer follows the clock: the presenter keeps seeing 0. |
| LedClockController.EditedSecondFollowsClock | LedClock/Controller.h:297-318 | Until then, in every date or time edit the scratch second is the clock's current second and the other fields are the scratch ones. |
| LedClockController.EnteringEditRearmsSecond | LedClock/Controller.h:130-208 | Entering an edit re-arms the seconds, however the previous edit ended. |
| LedClockController.PressReleaseUnsuppresses | LedClock/Controller.h:274-294 | A press and its release in an edit leave the blink running again. |
| LedClockController.EnterAndLeaveWritesShownTime | LedClock/Controller.h:130-208 | Entering an edit and leaving it straight away sets the clock to the normalized time shown when the edit was entered, and returns to the view. |
| LedClockController.Controller.constructor | LedClock/Controller.h:22-42 | The constructor: the hour-minute view, the blink shown. |
| LedClockController.Controller.Setup | LedClock/Controller.h:44-64 | setup: restore the stored info, or write the defaults; then read the time. |
| LedClockController.Controller.Update | LedClock/Controller.h:70-76 | update(): the new state is UpdateStep of the old one (read the clock unless editing, run the blink timer, hand over the rendering info), and the invariant holds. |
| LedClockController.Controller.ModeButtonPress | LedClock/Controller.h:78-128 | modeButtonPress: the new state is ModePressStep of the old one, and the invariant holds. |
| LedClockController.Controller.ModeButtonLongPress | LedClock/Controller.h:130-208 | modeButtonLongPress: the new state is LongPressStep of the old one, and the invariant holds. |
| LedClockController.Controller.ChangeButtonPress | LedClock/Controller.h:210-264 | changeButtonPress: change the field, then update the display at once. |
| LedClockController.Controller.ChangeSwitch | LedClock/Controller.h:210-264 | The switch of changeButtonPress, before its update(). |
| LedClockController.Controller.ChangeButtonRepeatPress | LedClock/Controller.h:266-272 | changeButtonRepeatPress: the change of ChangeField, then the update() that reads the clock, runs the blink timer and redraws (UpdateStep); the invariant holds. |
| LedClockController.Controller.ChangeButtonRelease | LedClock/Controller.h:274-294 | changeButtonRelease: the new state is ReleaseStep of the old one. |
| LedClockController.Controller.UpdateDateTime | LedClock/Controller.h:297-318 | updateDateTime: the new state is DateTimeStep of the old one. |
| LedClockController.Controller.UpdateBlinkState | LedClock/Controller.h:320-330 | updateBlinkState: only the blink timer moves, as Blink.Update says. |
| LedClockController.Controller.UpdateRenderingInfo | LedClock/Controller.h:332-354 | updateRenderingInfo: the new state is RenderStep of the old one. |
| LedClockController.Controller.SaveDateTime | LedClock/Controller.h:357-369 | saveDateTime: normalize the scratch date-time in place and set the clock to it. |
| LedClockController.Controller.SaveClockInfo | LedClock/Controller.h:372-375 | saveClockInfo: commit the scratch snapshot and persist it (no handler calls it). |
| LedClockController.Controller.SetupClockInfo | LedClock/Controller.h:394-397 | setupClockInfo: 24-hour mode and the initial zone in the committed snapshot, nothing else. |
| LedClockController.Controller.PreserveClockInfo | LedClock/Controller.h:400-407 | preserveClockInfo: the record of the given snapshot is appended to the EEPROM writes, nothing else. |
| LedClockInfo.StoredOf | LedClock/Controller.h:410-415 | storedInfoFromClockInfo: the three persisted fields. |
| LedClockInfo.WithStored | LedClock/Controller.h:378-391 | clockInfoFromStoredInfo: the persisted fields replaced, the brightness clamped into the LED module's range [lo, hi]; everything else kept. |
| LedClockInfo.StoredRoundTrip | LedClock/Controller.h:378-391 | A snapshot whose brightness is in range is restored from its own record unchanged. |
| LedClockInfo.Rendered | LedClock/Presenter.h:30-37 | setRenderingInfo: the mode, the blink flag, and three fields of the snapshot. |
| LedClockInfo.RenderedIgnoresBrightness | LedClock/Presenter.h:30-37 | The brightness and the snapshot's own blink flags never reach the presenter. |
| LedClockPresenter.ShouldShowFor | LedClock/Presenter.h:45-47 | shouldShowFor: a field is hidden only in its own mode while blinking off (no suppress term). |
| LedClockPresenter.BlinkStyleOps | LedClock/Presenter.h:112-143 | setBlinkStyle: the style of each of the four digits, per mode. |
| LedClockPresenter.YearScreen | LedClock/Presenter.h:79-83 | The year screen: "20" and the two-digit yearTiny (the int8 offset from 2000) as a clock, the colon off. For the years 2000 to 2099 the four digits read as the year. |
| LedClockPresenter.LeftFieldScreen | LedClock/Presenter.h:85-99 | The month and day screens: the value at digit 0, the colon off, digits 2 and 3 blank. |
| LedClockPresenter.Body | LedClock/Presenter.h:61-110 | displayData's switch after the blink style: the hour-minute view and the hour and minute edits share the clock screen; the year, month and day views share theirs with their edits; the weekday view writes the short name padded on the right. Every other mode (among them the second and brightness modes, whose case names kViewMinuteSecond, a mode the Mode enum does not declare) draws nothing. |
| LedClockPresenter.DataOps | LedClock/Presenter.h:61-110 | displayData: the blink style of the four digits, then the mode's screen. |
| LedClockPresenter.FrameOps | LedClock/Presenter.h:19-28 | display's output: a clear iff the mode changed, then the data iff the info changed. |
| LedClockPresenter.DisplayIdempotent | LedClock/Presenter.h:19-28 | A frame drawn twice in a row: the second draws nothing. |
| LedClockPresenter.BlinkStateInvisible | LedClock/Presenter.h:55-110 | The picture does not depend on the blink flag, which the module's own blinking replaces; yet needsUpdate compares it, so every blink phase change redraws the same picture. |
| LedClockPresenter.EditedDigitsBlink | LedClock/Presenter.h:112-143 | In the hour edit exactly the hour digits blink, in the minute edit exactly the minute digits, and both are drawn by the same clock call. |
| LedClockPresenter.SecondAndBrightnessDrawNothing | LedClock/Presenter.h:61-110 | The second and brightness modes draw no digits: the display keeps only its cleared state. |
| LedClockPresenter.Presenter.constructor | LedClock/Presenter.h:16-17 | Presenter(): both rendering infos start at their member initializers, nothing drawn. |
| LedClockPresenter.Presenter.Display | LedClock/Presenter.h:19-28 | display: draw the frame, then remember the info, whether or not it was drawn. |
| LedClockPresenter.Presenter.SetRenderingInfo | LedClock/Presenter.h:30-37 | setRenderingInfo: the mode, the blink flag and the snapshot's hour mode, zone and time. |
| LedClockProtoController.StoredOf | Controller.h:298-302 | storedInfoFromClockInfo: the two persisted fields of a snapshot. |
| LedClockProtoController.WithStored | Controller.h:275-279 | clockInfoFromStoredInfo: the two persisted fields replaced, the time kept. |
| LedClockProtoController.StoredRoundTrip | Controller.h:275-279 | A snapshot restored from its own record is the snapshot. |
| LedClockProtoController.ViewCyclePeriod | Controller.h:68-104 | Six presses bring a view back, and no fewer do. |
| LedClockProtoController.EditCyclePeriod | Controller.h:68-104 | Five presses bring an edit field back, and no fewer do. |
| LedClockProtoController.LongPressMode | Controller.h:106-156 | modeButtonLongPress's mode: a view enters the edit of its first field (MINUTE_SECOND the minute), WEEKDAY has none; an edit goes back to its view, the hour and the minute both to HOUR_MINUTE. |
| LedClockProtoController.LongPressRoundTrip | Controller.h:106-156 | Two long presses come back to the view they left, except from MINUTE_SECOND, whose minute edit returns to HOUR_MINUTE. |
| LedClockProtoController.ModePressStep | Controller.h:68-104 | modeButtonPress: the next mode of the ring, nothing else. |
| LedClockProtoController.LongPressStep | Controller.h:106-156 | modeButtonLongPress: from a view other than WEEKDAY the scratch snapshot becomes a copy of the committed one; from an edit the clock is set to the scratch date-time (not normalized) and the committed snapshot is left alone. |
| LedClockProtoController.ChangeField | Controller.h:158-186 | changeButtonPress's switch: in a field edit the blink is held and only the scratch date-time's field changes; in a view nothing changes. |
| LedClockProtoController.ReleaseStep | Controller.h:192-204 | changeButtonRelease: the blink resumes in the modes of its switch. |
| LedClockProtoController.DateTimeStep | Controller.h:207-225 | updateDateTime: the committed time is read from the clock in the committed zone; in a date-time edit whose second was not cleared, the scratch second follows it. |
| LedClockProtoController.RenderStep | Controller.h:239-261 | updateRenderingInfo: the scratch snapshot in its modes, the committed one otherwise; blinking is `suppress || show`. |
| LedClockProtoController.UpdateStep | Controller.h:60-66 | update: nothing in MODE_UNKNOWN; otherwise read the time, run the blink timer, hand the presenter its info and call display(). |
| LedClockProtoController.EditedSecondFollowsClock | Controller.h:207-225 | mSecondFieldCleared is never set, so in every date-time edit the second on the screen is the clock's current second. |
| LedClockProtoController.PressIsShownAtOnce | Controller.h:158-186 | The presenter sees what the mode edits: in a field edit, the scratch snapshot with the edited field moved on and the blink held, whatever the blink timer says. |
| LedClockProtoController.PressReleaseUnsuppresses | Controller.h:192-204 | A press and its release in a field edit leave the blink running again. |
| LedClockProtoController.EnterAndLeaveWritesShownTime | Controller.h:106-156 | Entering an edit and leaving it straight away sets the clock to the time on the screen when the edit was entered, and returns to a view. |
| LedClockProtoController.RestoreStep | Controller.h:40-54 | setup's restore: a valid stored record supplies the hour mode and the zone; otherwise the defaults (24-hour, the initial zone) are set and written. |
| LedClockProtoController.FirstBootSurvivesReboot | Controller.h:40-54 | The record written on a first boot restores the same hour mode and zone on the next boot. |
| LedClockProtoController.Controller.constructor | Controller.h:24-38 | A statically allocated controller: MODE_HOUR_MINUTE, the flags false, the blink shown. |
| LedClockProtoController.Controller.Setup | Controller.h:40-54 | setup: restore the stored info, or write the defaults; then read the time. |
| LedClockProtoController.Controller.Update | Controller.h:60-66 | update(): the new state is UpdateStep of the old one (read the clock unless editing, run the blink timer, hand over the rendering info), and the invariant holds. |
| LedClockProtoController.Controller.ModeButtonPress | Controller.h:68-104 | modeButtonPress: the new state is ModePressStep of the old one, and the invariant holds. |
| LedClockProtoController.Controller.ModeButtonLongPress | Controller.h:106-156 | modeButtonLongPress: the new state is LongPressStep of the old one, and the invariant holds. |
| LedClockProtoController.Controller.ChangeButtonPress | Controller.h:158-186 | changeButtonPress: change the field, then update the display at once. |
| LedClockProtoController.Controller.ChangeButtonRepeatPress | Controller.h:188-190 | changeButtonRepeatPress: the change of ChangeField, then the update() that reads the clock, runs the blink timer and redraws (UpdateStep); the invariant holds. |
| LedClockProtoController.Controller.ChangeButtonRelease | Controller.h:192-204 | changeButtonRelease: the new state is ReleaseStep of the old one. |
| LedClockProtoController.Controller.UpdateDateTime | Controller.h:207-225 | updateDateTime: the new state is DateTimeStep of the old one. |
| LedClockProtoController.Controller.UpdateBlinkState | Controller.h:227-237 | updateBlinkState: only the blink timer moves, as Blink.Update says. |
| LedClockProtoController.Controller.UpdateRenderingInfo | Controller.h:239-261 | updateRenderingInfo: the new state is RenderStep of the old one. |
| LedClockProtoController.Controller.SaveDateTime | Controller.h:264-266 | saveDateTime: the clock is set to the scratch date-time. |
| LedClockProtoController.Controller.SaveClockInfo | Controller.h:269-272 | saveClockInfo: commit the scratch snapshot and persist it (no handler calls it). |
| LedClockProtoController.Controller.SetupClockInfo | Controller.h:282-285 | setupClockInfo: 24-hour mode and the initial zone in the committed snapshot, nothing else. |
| LedClockProtoController.Controller.PreserveClockInfo | Controller.h:288-295 | preserveClockInfo: the record of the given snapshot is appended to the EEPROM writes, nothing else. |
| LedClockGoController.ViewCyclePeriod | ledclockgo/controller.go:36-75 | Ten presses walk all ten view modes and come back, and no fewer do. |
| LedClockGoController.EditCyclePeriod | ledclockgo/controller.go:36-75 | Six presses walk the six date/time edit modes and come back, and no fewer do. |
| LedClockGoController.LongPressMode | ledclockgo/controller.go:77-131 | The mode after a long press of the Mode button. |
| LedClockGoController.LongPressRoundTrip | ledclockgo/controller.go:77-131 | A long press into an edit and a long press out of it return to the starting view; out of an edit and back in returns to the same edit, except ChangeMinute, which comes back as ChangeHour. |
| LedClockGoController.NextHour | ledclockgo/controller.go:138-142 | Hour field after a change press: uint8 increment, 24 wraps to 0. |
| LedClockGoController.NextMinuteOrSecond | ledclockgo/controller.go:143-152 | Minute and second fields: uint8 increment, 60 wraps to 0. |
| LedClockGoController.NextYear | ledclockgo/controller.go:153-157 | Year field: int16 increment, 2100 wraps to 2000. |
| LedClockGoController.NextMonth | ledclockgo/controller.go:158-162 | Month field: months 0..11 step by one, 12 wraps to 1; the result never exceeds 12 and is never 0 below 255. |
| LedClockGoController.NextDay | ledclockgo/controller.go:163-167 | Day field: uint8 increment, 32 wraps to 1 (the month's length is not consulted). |
| LedClockGoController.NextZoneIndex | ledclockgo/controller.go:168-172 | Zone index: uint8 increment, wrapping to 0 at the catalog size. |
| LedClockGoController.NextBrightness | ledclockgo/controller.go:173-177 | Brightness: 0..6 step by one, 7 wraps to 0; the result stays in 0..7. |
| LedClockGoController.HourPeriod | ledclockgo/controller.go:138-142 | Twenty-four presses bring an hour of 0..23 back, and no fewer do. |
| LedClockGoController.MinuteOrSecondPeriod | ledclockgo/controller.go:143-152 | Sixty presses bring a minute or second of 0..59 back, and no fewer do. |
| LedClockGoController.YearPeriod | ledclockgo/controller.go:153-157 | A hundred presses bring a year of 2000..2099 back, and no fewer do. |
| LedClockGoController.MonthPeriod | ledclockgo/controller.go:158-162 | Twelve presses bring a month of 1..12 back, and no fewer do. |
| LedClockGoController.DayPeriod | ledclockgo/controller.go:163-167 | Thirty-one presses bring a day of 1..31 back, and no fewer do. |
| LedClockGoController.BrightnessPeriod | ledclockgo/controller.go:173-177 | Eight presses bring a brightness of 0..7 back, and no fewer do. |
| LedClockGoController.ZoneIndexPeriod | ledclockgo/controller.go:168-172 | The zone index returns after as many presses as the catalog has zones. |
| LedClockGoController.Incremented | ledclockgo/controller.go:133-188 | The scratch snapshot after a change press in mode m: only m's field moves. |
| LedClockGoController.Committed | ledclockgo/controller.go:244-255 | saveClockInfo's new committed snapshot: the scratch snapshot, except that after a zone change the date-time is the old committed instant re-expressed in the new zone. |
| LedClockGoController.RtcDateTimeOf | ledclockgo/controller.go:257-280 | saveRTC's register image of a UTC date-time: year minus 2000 as uint8, century always 0. |
| LedClockGoController.RtcRoundTrip | ledclockgo/controller.go:205-280 | Writing the RTC and reading it back gives the same UTC fields, for years 2000 to 2255. |
| LedClockGoController.AdjustEffects | ledclockgo/controller.go:205-224 | The effects of SetupSystemTimeFromRTC: nothing on a read error, else one clock adjustment. |
| LedClockGoController.Controller.constructor | ledclockgo/controller.go:19-34 | NewController: 24-hour mode, ViewHourMinute, brightness 1; the scratch snapshot is zero. |
| LedClockGoController.Controller.UpdatePresenter | ledclockgo/controller.go:283-294 | updatePresenter: the presenter holds the snapshot Displayed() chooses (the scratch one in the edit modes). |
| LedClockGoController.Controller.HandleModePress | ledclockgo/controller.go:36-75 | Short press of Mode: next mode of the current ring, no data field changes. |
| LedClockGoController.Controller.SaveRtc | ledclockgo/controller.go:257-280 | saveRTC: one RTC write of the register image of the snapshot's time in UTC. |
| LedClockGoController.Controller.SetupSystemTimeFromRtc | ledclockgo/controller.go:205-224 | Reads the RTC (result `read`) and adjusts the system clock, whose time is `nowNanos`. |
| LedClockGoController.Controller.SaveClockInfo | ledclockgo/controller.go:244-255 | saveClockInfo: the committed snapshot becomes Committed(...) of the scratch one; the RTC is written with its UTC time and the system clock adjusted from it. |
| LedClockGoController.Controller.HandleModeLongPress | ledclockgo/controller.go:77-131 | Long press of Mode: from a view with an edit counterpart, enter the edit with a fresh copy of the committed snapshot; from an edit, commit and return to the view; otherwise stay. `read` and `nowNanos` are what the RTC and system clock give during the commit. |
| LedClockGoController.Controller.HandleChangePress | ledclockgo/controller.go:133-188 | Press of Change: suppress blinking and advance the edited field of the scratch snapshot. |
| LedClockGoController.Controller.HandleChangeRelease | ledclockgo/controller.go:190-193 | Release of Change: blinking resumes; the presenter is not told. |
| LedClockGoController.Controller.SyncSystemTime | ledclockgo/controller.go:195-202 | SyncSystemTime: the committed date-time becomes the system time `nowSeconds` in the current zone. |
| LedClockGoController.Controller.Blink | ledclockgo/controller.go:226-230 | Blink: both snapshots flip their show state; nothing else changes. |
| LedClockGoController.Controller.ReadTemp | ledclockgo/controller.go:232-240 | ReadTemp: on a sensor error nothing changes, not even the presenter's snapshot. |
| LedClockGoPresenter.WithEditedField | ledclockgo/presenter.go:29-147 | The snapshot with the edited field of its mode set to v. |
| LedClockGoPresenter.TempDegrees | ledclockgo/presenter.go:138-145 | The temperature digits: int8(centi / 100), truncated toward zero. |
| LedClockGoPresenter.HiddenFieldNotDrawn | ledclockgo/presenter.go:29-147 | While an edit mode's field is hidden, the frame does not depend on the field's value: the field is blanked, and nothing else is. |
| LedClockGoPresenter.ShownFieldDrawnAsView | ledclockgo/presenter.go:29-147 | While the field is shown, every edit mode but ChangeSecond draws exactly the frame of its view mode (ChangeSecond writes the colon after the digits). |
| LedClockGoPresenter.ShownFieldDrawn | ledclockgo/presenter.go:29-147 | While shown, a different hour, minute, month, day or brightness gives a different frame. |
| LedClockGoPresenter.BrightnessOps | ledclockgo/presenter.go:33-35 | SetBrightness is issued iff the brightness differs from the previous snapshot's, and then with the new brightness. |
| LedClockGoPresenter.Presenter.constructor | ledclockgo/presenter.go:15-23 | NewPresenter: both infos zero, nothing drawn. |
| LedClockGoPresenter.Presenter.SetClockInfo | ledclockgo/presenter.go:25-27 | SetClockInfo: the presenter holds the given snapshot by value; nothing else changes. |
| LedClockGoPresenter.Presenter.UpdateDisplay | ledclockgo/presenter.go:29-147 | UpdateDisplay: nothing when the snapshot equals the last one drawn; otherwise push a changed brightness, remember the snapshot, and draw it. The zone catalog is indexed only in the time-zone modes, which the source leaves to panic on a bad index. |
| LedClockGoPresenter.UpdateOps | ledclockgo/presenter.go:29-37 | UpdateDisplay's output is empty iff the snapshot equals the one drawn last; otherwise it starts with the brightness push, then Home. |
| LedClockGoPresenter.UpdateIdempotent | ledclockgo/presenter.go:29-37 | Two updates with no SetClockInfo between them draw at most once: the second draws nothing. |
| LedClockTinyController.ViewCyclePeriod | LedClockTiny/Controller.h:67-119 | Seven presses bring a view back, and no fewer do. |
| LedClockTinyController.EditCyclePeriod | LedClockTiny/Controller.h:67-119 | Six presses bring a date or time edit back, and no fewer do; the weekday edit is not on the ring. |
| LedClockTinyController.LongPressMode | LedClockTiny/Controller.h:121-212 | modeButtonLongPress's mode: a view enters the edit of its first field, the brightness view the brightness edit; an edit goes back to its view, the hour and the minute both to the hour-minute view. |
| LedClockTinyController.LongPressRoundTrip | LedClockTiny/Controller.h:121-212 | Two long presses come back to the view they left. |
| LedClockTinyController.ModePressStep | LedClockTiny/Controller.h:67-119 | modeButtonPress: the next mode of the ring, mirrored into the scratch snapshot. |
| LedClockTinyController.SaveDateTimeStep | LedClockTiny/Controller.h:354-364 | saveDateTime: the clock is set to the scratch date-time as it stands (not normalized). |
| LedClockTinyController.LongPressStep | LedClockTiny/Controller.h:121-212 | modeButtonLongPress: entering a date, time or weekday edit copies the committed snapshot into the scratch one and re-arms the seconds; leaving one sets the clock to the scratch date-time; leaving the brightness edit writes the settings to the EEPROM. The new mode ends up in both snapshots. |
| LedClockTinyController.BrightnessPress | LedClockTiny/Controller.h:259-261 | incrementMod(brightness, 8) on the uint8 brightness: 0 to 7, then back to 0. |
| LedClockTinyController.ChangeField | LedClockTiny/Controller.h:214-270 | changeButtonPress's switch: the blink is held in both snapshots, in every mode; a date or time edit moves its field of the scratch date-time (the second edit also stops the second following the clock); the brightness edit steps the committed brightness; the weekday edit and the views change nothing else. |
| LedClockTinyController.ReleaseStep | LedClockTiny/Controller.h:280-301 | changeButtonRelease: the blink resumes in both snapshots in the edit modes; in a view it stays held. |
| LedClockTinyController.TotalOffset | LedClockTiny/Controller.h:304-329 | updateDateTime's offset: the int16 standard offset plus the DST offset when the flag is set, the sum wrapped to int16. |
| LedClockTinyController.OffsetZone | LedClockTiny/Controller.h:304-329 | The fixed UTC offset of TimeOffset::forMinutes, as a zone with only a standard offset. |
| LedClockTinyController.DateTimeStep | LedClockTiny/Controller.h:304-329 | updateDateTime: the committed time is read from the clock in the fixed offset; in a date or time edit (not the weekday edit) whose second was not cleared, the scratch second follows it. |
| LedClockTinyController.PresentStep | LedClockTiny/Controller.h:331-351 | updatePresenter: the scratch snapshot in the date, time, hour-mode and weekday edits, the committed one otherwise (so the brightness edit shows the committed brightness). |
| LedClockTinyController.UpdateStep | LedClockTiny/Controller.h:53-58 | update: read the time, hand the presenter its snapshot and call updateDisplay(). Its early return in kUnknown is not modelled: the constructor starts in a view and no button leads to kUnknown. |
| LedClockTinyController.BlinkStep | LedClockTiny/Controller.h:61-65 | updateBlinkState: both snapshots flip their blink flag, and the presenter gets the new one. |
| LedClockTinyController.RestoreStep | LedClockTiny/Controller.h:34-47 | setup's restore: a valid stored record supplies the hour mode and the brightness as stored; otherwise 24-hour mode is set (the brightness keeps its initial value) and written. |
| LedClockTinyController.PresenterSeesControllerMode | LedClockTiny/Controller.h:331-351 | The presenter always sees the controller's mode and the committed blink flags, from whichever snapshot it is handed: the mode copied after every button and the flags flipped and held in both snapshots keep them in step. |
| LedClockTinyController.BrightnessPresses | LedClockTiny/Controller.h:214-270 | In the brightness edit, k presses step the brightness k times and change nothing but the held blink. |
| LedClockTinyController.BrightnessCyclePeriod | LedClockTiny/Controller.h:259-261 | Eight presses in the brightness edit bring a level of 0 to 7 back, and no fewer do. |
| LedClockTinyController.ChosenBrightnessSurvivesReboot | LedClockTiny/Controller.h:34-47 | A brightness chosen in the brightness edit and saved by the long press comes back unchanged from the EEPROM on the next boot. |
| LedClockTinyController.WeekdayScratchFrozen | LedClockTiny/Controller.h:304-329 | The weekday edit changes nothing: its scratch date-time neither follows the clock nor moves on a press. |
| LedClockTinyController.WeekdayEditRewindsClock | LedClockTiny/Controller.h:121-212 | So leaving the weekday edit sets the clock back to the time at which the edit was entered, however much later the long press comes. |
| LedClockTinyController.HeldBlinkCarriesIntoEdit | LedClockTiny/Controller.h:280-301 | A change press in a view holds the blink, and the release in a view does not let go; the next edit entered then shows its field without blinking until a press and release inside the edit. |
| LedClockTinyController.ClearedSecondStaysZero | LedClockTiny/Controller.h:304-329 | Once the second was zeroed in the second edit, the scratch second no longer follows the clock: the presenter keeps seeing 0. |
| LedClockTinyController.EditedSecondFollowsClock | LedClockTiny/Controller.h:304-329 | Until then, in every date or time edit the presenter's second is the clock's current second and the other fields are the scratch ones. |
| LedClockTinyController.PressReleaseUnsuppresses | LedClockTiny/Controller.h:280-301 | A press and its release in an edit leave the blink running again, in both snapshots. |
| LedClockTinyController.EnterAndLeaveWritesShownTime | LedClockTiny/Controller.h:121-212 | Entering an edit and leaving it straight away sets the clock to the time shown when the edit was entered, as it stands, and changes no setting. |
| LedClockTinyController.Controller.constructor | LedClockTiny/Controller.h:22-32 | The constructor: the hour-minute view (mSecondFieldCleared read as false). |
| LedClockTinyController.Controller.Setup | LedClockTiny/Controller.h:34-47 | setup: restore the stored info, or write the defaults; then read the time. |
| LedClockTinyController.Controller.Update | LedClockTiny/Controller.h:53-58 | update(): the new state is UpdateStep of the old one (read the clock unless editing, hand the snapshot to the presenter), and the invariant holds. |
| LedClockTinyController.Controller.UpdateBlinkState | LedClockTiny/Controller.h:61-65 | updateBlinkState: called every 0.5 s from the loop. |
| LedClockTinyController.Controller.ModeButtonPress | LedClockTiny/Controller.h:67-119 | modeButtonPress: the new state is ModePressStep of the old one, and the invariant holds. |
| LedClockTinyController.Controller.ModeButtonLongPress | LedClockTiny/Controller.h:121-212 | modeButtonLongPress: the new state is LongPressStep of the old one, and the invariant holds. |
| LedClockTinyController.Controller.ChangeButtonPress | LedClockTiny/Controller.h:214-270 | changeButtonPress: hold the blink, change the field, then update the display at once. |
| LedClockTinyController.Controller.ChangeSwitch | LedClockTiny/Controller.h:214-267 | The flags and the switch of changeButtonPress, before its update(). |
| LedClockTinyController.Controller.ChangeButtonRepeatPress | LedClockTiny/Controller.h:272-278 | changeButtonRepeatPress: the same change as a press, followed by update(). |
| LedClockTinyController.Controller.ChangeButtonRelease | LedClockTiny/Controller.h:280-301 | changeButtonRelease: the new state is ReleaseStep of the old one. |
| LedClockTinyController.Controller.UpdateDateTime | LedClockTiny/Controller.h:304-329 | updateDateTime: the new state is DateTimeStep of the old one, with the clock's current time and the two offsets. |
| LedClockTinyController.Controller.UpdatePresenter | LedClockTiny/Controller.h:331-351 | updatePresenter: the presenter gets the snapshot PresentStep chooses; nothing else changes. |
| LedClockTinyController.Controller.SaveDateTime | LedClockTiny/Controller.h:354-364 | saveDateTime: set the clock to the scratch date-time. |
| LedClockTinyController.Controller.SaveClockInfo | LedClockTiny/Controller.h:367-370 | saveClockInfo: commit the scratch snapshot and persist it (no handler calls it). |
| LedClockTinyController.Controller.SetupClockInfo | LedClockTiny/Controller.h:380-382 | setupClockInfo: 24-hour mode in the committed snapshot, nothing else. |
| LedClockTinyController.Controller.PreserveClockInfo | LedClockTiny/Controller.h:385-392 | preserveClockInfo: the record of the given snapshot is appended to the EEPROM writes, nothing else. |
| LedClockTinyInfo.StoredOf | LedClockTiny/Controller.h:395-399 | storedInfoFromClockInfo: the two persisted fields. |
| LedClockTinyInfo.WithStored | LedClockTiny/Controller.h:373-377 | clockInfoFromStoredInfo: the hour mode and the brightness replaced, as stored; everything else kept. |
| LedClockTinyInfo.StoredRoundTrip | LedClockTiny/Controller.h:373-399 | Any snapshot is restored from its own record unchanged (nothing is clamped here). |
| LedClockTinyInfo.RestoredRecordRoundTrip | LedClockTiny/Controller.h:373-399 | A record read back from a snapshot it was restored into is the record itself. |
| LedClockTinyPresenter.ShouldShowFor | LedClockTiny/Presenter.h:53-57 | shouldShowFor: a field is hidden only in its own mode, while blinking off and not suppressed. |
| LedClockTinyPresenter.SettingsOps | LedClockTiny/Presenter.h:70-75 | updateDisplaySettings: the brightness is pushed on the first frame and whenever it changed. |
| LedClockTinyPresenter.Field2 | LedClockTiny/Presenter.h:131-192 | A two-digit field: its value padded with '0', or two blank digits. |
| LedClockTinyPresenter.HourMinuteScreen | LedClockTiny/Presenter.h:131-146 | displayHourMinute: the hour and the minute, each blanked in its own edit; the colon on. |
| LedClockTinyPresenter.SecondScreen | LedClockTiny/Presenter.h:148-159 | displaySecond: two blanks, then the second and the colon, or two more blanks. |
| LedClockTinyPresenter.YearScreen | LedClockTiny/Presenter.h:161-168 | displayYear: the year as four digits, or a cleared display; the colon off. |
| LedClockTinyPresenter.RightFieldScreen | LedClockTiny/Presenter.h:170-192 | displayMonth and displayDay: two blanks, the value or two blanks, the colon off. |
| LedClockTinyPresenter.WeekdayScreen | LedClockTiny/Presenter.h:194-202 | displayWeekday: the short weekday name and the rest of the display cleared, or a cleared display. |
| LedClockTinyPresenter.BrightnessScreen | LedClockTiny/Presenter.h:204-220 | displayBrightness: "Br", the colon on, then the level padded with a blank, or two blanks. |
| LedClockTinyPresenter.DataOps | LedClockTiny/Presenter.h:79-129 | displayData: home the cursor, then the mode's screen. |
| LedClockTinyPresenter.FrameOps | LedClockTiny/Presenter.h:31-41 | updateDisplay's output: a clear iff the mode changed, then the settings and the data iff the info changed. |
| LedClockTinyPresenter.DisplayIdempotent | LedClockTiny/Presenter.h:31-41 | A frame drawn twice in a row: the second draws nothing. |
| LedClockTinyPresenter.BlinkInvisibleUnlessEditing | LedClockTiny/Presenter.h:53-67 | In a view, and in an edit while the blink is held, every field is shown: the blink phase cannot change the picture there, although needsUpdate redraws for it. |
| LedClockTinyPresenter.HourAndMinuteBlinkApart | LedClockTiny/Presenter.h:131-146 | The hour and the minute blink independently: in the hour edit the minute is always drawn and the hour is blank exactly while blinking off; in the minute edit the other way round. The colon stays on. |
| LedClockTinyPresenter.SecondColonOnlyWhenShown | LedClockTiny/Presenter.h:148-159 | In the second edit the colon is drawn only with the second. |
| LedClockTinyPresenter.HiddenYearClears | LedClockTiny/Presenter.h:161-168 | A hidden year clears the whole display, and the colon is off. |
| LedClockTinyPresenter.HiddenWeekdayClears | LedClockTiny/Presenter.h:194-202 | A hidden weekday clears the whole display. |
| LedClockTinyPresenter.BrightnessLabelStays | LedClockTiny/Presenter.h:204-220 | In the brightness edit the "Br:" label stays while the level blinks. |
| LedClockTinyPresenter.Presenter.constructor | LedClockTiny/Presenter.h:22-29 | The constructor: the initial snapshot as both the current and the previous one, nothing drawn. |
| LedClockTinyPresenter.Presenter.UpdateDisplay | LedClockTiny/Presenter.h:31-41 | updateDisplay: draw the frame, then remember the info, whether or not it was drawn. |
| LedClockTinyPresenter.Presenter.SetClockInfo | LedClockTiny/Presenter.h:43-45 | setClockInfo: the snapshot to draw next is the one given. |
| MedMinderController.ViewCyclePeriod | MedMinder/Controller.h:97-166 | Five presses bring a screen back, and no fewer do. |
| MedMinderController.MedCyclePeriod | MedMinder/Controller.h:97-166 | The interval edit alternates between its hour and its minute. |
| MedMinderController.DateCyclePeriod | MedMinder/Controller.h:97-166 | Six presses bring a date field back, and no fewer do; the zone-name and contrast edits have a single field and stay where they are. |
| MedMinderController.DoubleClickMode | MedMinder/Controller.h:172-206 | The mode after a double click: every edit is abandoned for a screen, the others stay. |
| MedMinderController.LongPressRoundTrip | MedMinder/Controller.h:208-285 | A long press on each editable screen enters an edit and a second one comes back to that screen; a double click leaves every edit for the screen a long press would, except the interval edit, which it leaves for the date-time screen rather than the countdown. |
| MedMinderController.ModePressStep | MedMinder/Controller.h:97-166 | handleModeButtonPress: the next mode, copied to the scratch snapshot. |
| MedMinderController.DoubleClickStep | MedMinder/Controller.h:172-206 | handleModeButtonDoubleClick: the edit is abandoned; only the clock's mode changes. |
| MedMinderController.DoubleClickDiscards | MedMinder/Controller.h:172-206 | Abandoning an edit writes nothing, and the clock keeps its schedule, zone and contrast. |
| MedMinderController.Preserve | MedMinder/Controller.h:467-474 | preserveClockInfo: the clock's record is written to the EEPROM. |
| MedMinderController.InitChanging | MedMinder/Controller.h:289-294 | initChangingClock: an unset clock starts its edit at epoch 0 in its zone. |
| MedMinderController.EnterMedEdit | MedMinder/Controller.h:214-217 | A long press on the countdown: the scratch snapshot starts from the clock, in the hour edit of the interval. |
| MedMinderController.SaveMedInterval | MedMinder/Controller.h:296-302 | saveMedInterval: only an interval that differs from the clock's is saved, with its seconds dropped, and only then is the EEPROM written. |
| MedMinderController.LeaveMedEdit | MedMinder/Controller.h:220-224 | A long press in the interval edit: the interval is saved and the countdown shown. |
| MedMinderController.EnterDateEdit | MedMinder/Controller.h:227-232 | A long press on the date-time screen: the scratch snapshot starts from the clock, the second not latched. |
| MedMinderController.LeaveDateEdit | MedMinder/Controller.h:235-243 | A long press in a date edit: the scratch date-time is normalized and the clock set to it. |
| MedMinderController.EnterZoneEdit | MedMinder/Controller.h:246-256 | A long press on the zone screen: the scratch snapshot starts from the clock and the registry index from the clock's zone (as a uint16). |
| MedMinderController.LeaveZoneEdit | MedMinder/Controller.h:309-312 | A long press in the zone edit (saveChangingClockInfo): the clock becomes the scratch snapshot, which is persisted. |
| MedMinderController.EnterContrastEdit | MedMinder/Controller.h:270-272 | A long press on the settings screen: the contrast edit, on the clock itself. |
| MedMinderController.LeaveContrastEdit | MedMinder/Controller.h:275-278 | A long press in the contrast edit: the clock's record is persisted. |
| MedMinderController.LongPressStep | MedMinder/Controller.h:208-285 | handleModeButtonLongPress: into the edit of a screen, or out of an edit saving it; the mode goes to the scratch snapshot too. |
| MedMinderController.UnchangedIntervalIsNotWritten | MedMinder/Controller.h:296-302 | Into the interval edit and straight out again: nothing is written, because the interval did not change; the clock is as it was. |
| MedMinderController.LongPressSavesInterval | MedMinder/Controller.h:208-285 | Leaving the interval edit after a change: the clock takes the edited interval with its seconds dropped and keeps everything else, and the record written carries it. |
| MedMinderController.LongPressSavesZone | MedMinder/Controller.h:208-285 | Leaving the zone edit: the clock takes the chosen zone, and the record written is the clock's new record. |
| MedMinderController.LongPressSavesDate | MedMinder/Controller.h:208-285 | Leaving a date edit: the clock is set to the normalized scratch time; the EEPROM is not written. |
| MedMinderController.Suppressed | MedMinder/Controller.h:318-319 | Both snapshots start (or stop) suppressing the blink. |
| MedMinderController.IncrementField | MedMinder/Controller.h:366-390 | The zoned_date_time_mutation call of each date edit, or the zeroed second. |
| MedMinderController.MedPress | MedMinder/Controller.h:322-330 | A press in the interval edit: the hour (bounded by the maximum interval) or the minute moves on. |
| MedMinderController.ZonePress | MedMinder/Controller.h:356-362 | A press in the zone edit: the next zone of the registry, and the scratch time converted to it. |
| MedMinderController.DatePress | MedMinder/Controller.h:366-390 | A press in a date edit: one scratch field changes; the zeroed second is latched. |
| MedMinderController.ContrastPress | MedMinder/Controller.h:392-394 | A press in the contrast edit: the clock's own level steps through 0..9. |
| MedMinderController.ChangeField | MedMinder/Controller.h:314-403 | The switch of handleChangeButtonPress, after both snapshots start suppressing the blink. |
| MedMinderController.Remaining | MedMinder/Controller.h:546-560 | getRemainingTimePeriod: the time left until the next dose, or the error period when the clock is unset or the time left is more than the maximum interval either way. |
| MedMinderController.RemainingIsTimeToDue | MedMinder/Controller.h:546-560 | The countdown is the due time minus the present: the time of the last dose plus the interval, less the clock's epoch seconds, exactly while that fits an int32. |
| MedMinderController.DoseResetsCountdown | MedMinder/Controller.h:435-445 | Just after a dose is recorded (handleChangeButtonLongPress stores the clock's epoch seconds as a uint32), the countdown shows the whole interval, whatever the epoch seconds, wrap-around of the uint32 included. |
| MedMinderController.DoseStep | MedMinder/Controller.h:435-445 | handleChangeButtonLongPress: on the countdown a dose is recorded at the clock's time and persisted; elsewhere nothing. |
| MedMinderController.DateTimeStep | MedMinder/Controller.h:476-498 | updateDateTime: the clock reads the time in its zone; in a date edit the scratch second follows the clock's until it has been zeroed. |
| MedMinderController.CountdownStep | MedMinder/Controller.h:501-540 | On the countdown the scratch snapshot is the clock with the time left in place of the interval. |
| MedMinderController.PresentStep | MedMinder/Controller.h:501-540 | updatePresenter: the presenter is handed the clock on the screens and in the contrast edit, the scratch snapshot in the other edits, and the countdown on the medication screen. |
| MedMinderController.UpdateStep | MedMinder/Controller.h:451-457 | update: nothing before the mode is known or while preparing to sleep; otherwise read the time, hand the presenter its snapshot and redraw. |
| MedMinderController.PresenterSeesEdit | MedMinder/Controller.h:501-540 | In every scratch edit the presenter is handed the scratch snapshot, in the controller's mode, so that it blinks the field being edited; on the countdown it is handed the clock with the time left. |
| MedMinderController.ChangeStep | MedMinder/Controller.h:314-403 | handleChangeButtonPress (and the repeat press): suppress the blink, change the field, update. |
| MedMinderController.HeldButtonSuppressesBlink | MedMinder/Controller.h:459-463 | While the change button is held in an edit, the presenter is handed a snapshot that does not blink. |
| MedMinderController.ZonePressWalksRegistry | MedMinder/Controller.h:356-362 | Each press of the zone edit selects the next zone of the registry, and after as many presses as the registry has zones the walk is back at the first one. |
| MedMinderController.ReleaseStep | MedMinder/Controller.h:409-433 | handleChangeButtonRelease: every edit stops suppressing the blink. |
| MedMinderController.PressReleaseUnsuppresses | MedMinder/Controller.h:409-433 | A press and its release in an edit leave both snapshots blinking again. |
| MedMinderController.BlinkStep | MedMinder/Controller.h:459-463 | updateBlinkState: both snapshots flip their blink phase, and the presenter is handed its snapshot. |
| MedMinderController.SleepStep | MedMinder/Controller.h:92-95 | prepareToSleep: updates stop, and the display is switched off. |
| MedMinderController.WakeupStep | MedMinder/Controller.h:85-89 | wakeup: updates resume, the display is switched on, and the clock is synced and read in its zone. |
| MedMinderController.AsleepIgnoresUpdates | MedMinder/Controller.h:85-95 | Between prepareToSleep and wakeup every update is ignored, so nothing is redrawn on a display that is off; the wake-up switches it back on. |
| MedMinderController.RestoreStep | MedMinder/Controller.h:562-567 | restoreClockInfo on the clock: the record's zone, schedule and contrast. |
| MedMinderController.Defaults | MedMinder/Controller.h:569-578 | The record setupClockInfo means to install: the initial zone, a one-day interval from now, the initial contrast. |
| MedMinderController.SetupClockInfoAsWritten | MedMinder/Controller.h:569-578 | setupClockInfo as written: the clock's contrast is set, the clock's record is persisted, and only then are the defaults (whose contrast was never set, unsetContrast here) copied into the clock. |
| MedMinderController.SetupAsWrittenPersistsStaleRecord | MedMinder/Controller.h:56-75 | As written, the record that reaches the EEPROM on a first boot is the clock's record from before setup, not the defaults: on the next boot the constructor's zero interval and zero start time come back instead of a one-day interval from now, and the contrast in use is the unset value rather than the initial one. |
| MedMinderController.SetupClockInfo | MedMinder/Controller.h:569-578 | setupClockInfo as intended: the defaults are installed in the clock and persisted. |
| MedMinderController.SetupStep | MedMinder/Controller.h:56-75 | setup: a valid record is restored; otherwise the defaults are installed and then persisted (the corrected setupClockInfo of Findings; SetupClockInfoAsWritten is the code as written). |
| MedMinderController.FirstBootSurvivesReboot | MedMinder/Controller.h:56-75 | After a first boot the next boot restores exactly what the first one installed: the initial zone, a one-day interval started at that boot, and the initial contrast. |
| MedMinderController.SavesPersistTheClock | MedMinder/Controller.h:467-474 | Every save writes the record of the clock it leaves behind, so a reboot restores the clock's schedule, zone and contrast. |
| MedMinderController.DoseSurvivesReboot | MedMinder/Controller.h:56-75 | A recorded dose survives a reboot: the record written carries the new start time. |
| MedMinderController.Controller.constructor | MedMinder/Controller.h:34-54 | A statically allocated controller: every field zero, the clock on the date-time screen. |
| MedMinderController.Controller.Setup | MedMinder/Controller.h:56-75 | setup: restore the record read from the EEPROM, or install the defaults; the new state is SetupStep of the old one (the corrected setupClockInfo of Findings). |
| MedMinderController.Controller.RestoreClockInfo | MedMinder/Controller.h:562-567 | restoreClockInfo: the new state is RestoreStep of the old one, and the invariant holds. |
| MedMinderController.Controller.SetupClockInfoDefaults | MedMinder/Controller.h:569-578 | setupClockInfo as corrected in Findings: the defaults are installed before they are persisted (SetupClockInfoAsWritten is the code as written). |
| MedMinderController.Controller.PreserveClockInfo | MedMinder/Controller.h:467-474 | preserveClockInfo: the new state is Preserve of the old one. |
| MedMinderController.Controller.SyncClock | MedMinder/Controller.h:77-82 | syncClock: force a sync, then read the time in the clock's zone. |
| MedMinderController.Controller.Wakeup | MedMinder/Controller.h:85-89 | wakeup: the new state is WakeupStep of the old one, and the invariant holds. |
| MedMinderController.Controller.PrepareToSleep | MedMinder/Controller.h:92-95 | prepareToSleep: the new state is SleepStep of the old one, and the invariant holds. |
| MedMinderController.Controller.HandleModeButtonPress | MedMinder/Controller.h:97-166 | handleModeButtonPress: the new state is ModePressStep of the old one, and the invariant holds. |
| MedMinderController.Controller.HandleModeButtonDoubleClick | MedMinder/Controller.h:172-206 | handleModeButtonDoubleClick: the new state is DoubleClickStep of the old one, and the invariant holds. |
| MedMinderController.Controller.HandleModeButtonLongPress | MedMinder/Controller.h:208-285 | handleModeButtonLongPress: the new state is LongPressStep of the old one, and the invariant holds. |
| MedMinderController.Controller.EnterMedEditing | MedMinder/Controller.h:214-217 | The long press on the countdown: the new state is EnterMedEdit of the old one. |
| MedMinderController.Controller.LeaveMedEditing | MedMinder/Controller.h:220-224 | The long press in the interval edit: the new state is LeaveMedEdit of the old one. |
| MedMinderController.Controller.EnterContrastEditing | MedMinder/Controller.h:270-272 | The long press on the settings screen: the new state is EnterContrastEdit of the old one. |
| MedMinderController.Controller.LeaveContrastEditing | MedMinder/Controller.h:275-278 | The long press in the contrast edit: the new state is LeaveContrastEdit of the old one. |
| MedMinderController.Controller.SaveMedIntervalIfChanged | MedMinder/Controller.h:296-302 | saveMedInterval: the new state is SaveMedInterval of the old one (the interval is committed and persisted only when it changed), and the invariant holds. |
| MedMinderController.Controller.EnterDateEditing | MedMinder/Controller.h:227-232 | The long press on the date-time screen: the new state is EnterDateEdit of the old one. |
| MedMinderController.Controller.LeaveDateEditing | MedMinder/Controller.h:235-243 | saveDateTime then the date-time screen: the new state is LeaveDateEdit of the old one (the clock set to the scratch time). |
| MedMinderController.Controller.EnterZoneEditing | MedMinder/Controller.h:246-256 | The long press on the zone screen: the new state is EnterZoneEdit of the old one. |
| MedMinderController.Controller.SaveChangingClockInfo | MedMinder/Controller.h:309-312 | saveChangingClockInfo then the zone screen: the new state is LeaveZoneEdit of the old one (the scratch zone committed and persisted). |
| MedMinderController.Controller.InitChangingClock | MedMinder/Controller.h:289-294 | initChangingClock: the scratch snapshot becomes InitChanging of the old one (an unset clock reads epoch 0). |
| MedMinderController.Controller.HandleChangeButtonPress | MedMinder/Controller.h:314-403 | handleChangeButtonPress, and handleChangeButtonRepeatPress, which is the same. |
| MedMinderController.Controller.ApplyChange | MedMinder/Controller.h:314-403 | The switch of handleChangeButtonPress: the new state is ChangeField of the old one, and the invariant holds. |
| MedMinderController.Controller.ChangeZoneName | MedMinder/Controller.h:356-362 | changeZoneName: the new state is ZonePress of the old one. |
| MedMinderController.Controller.HandleChangeButtonRelease | MedMinder/Controller.h:409-433 | handleChangeButtonRelease: the new state is ReleaseStep of the old one, and the invariant holds. |
| MedMinderController.Controller.HandleChangeButtonLongPress | MedMinder/Controller.h:435-445 | handleChangeButtonLongPress: the new state is DoseStep of the old one, and the invariant holds. |
| MedMinderController.Controller.Update | MedMinder/Controller.h:451-457 | update: the new state is UpdateStep of the old one (nothing while asleep), and the invariant holds. |
| MedMinderController.Controller.UpdateBlinkState | MedMinder/Controller.h:459-463 | updateBlinkState: the new state is BlinkStep of the old one, and the invariant holds. |
| MedMinderController.Controller.UpdateDateTime | MedMinder/Controller.h:476-498 | updateDateTime: the new state is DateTimeStep of the old one, and the invariant holds. |
| MedMinderController.Controller.UpdatePresenter | MedMinder/Controller.h:501-540 | updatePresenter: the new state is PresentStep of the old one, and the invariant holds. |
| MedMinderController.Controller.GetRemainingTimePeriod | MedMinder/Controller.h:546-560 | getRemainingTimePeriod: the countdown to the next dose, as Remaining computes it from the snapshot. |
| MedMinderController.EnterEditStep | MedMinder/Controller.h:208-285 | A long press on a screen that has an edit: both snapshots take the edit's mode, and the invariant holds. |
| MedMinderController.LeaveEditStep | MedMinder/Controller.h:208-285 | The long press in an edit, or on a screen without one. |
| MedMinderController.Controller.EnterEditing | MedMinder/Controller.h:208-285 | The cases of handleModeButtonLongPress on a screen that has an edit. |
| MedMinderController.Controller.LeaveEditing | MedMinder/Controller.h:208-285 | The cases of handleModeButtonLongPress in an edit, or on a screen without one. |
| MedMinderInfo.WithStored | MedMinder/Controller.h:562-567 | restoreClockInfo: the four stored fields replaced in a snapshot, nothing else. |
| MedMinderPresenter.ShouldShowFor | MedMinder/Presenter.h:326-330 | shouldShowFor: a field is hidden only in its own mode, while blinking off and not suppressed. |
| MedMinderPresenter.MedScreen | MedMinder/Presenter.h:141-153 | displayMed: "Med due", then the time left, or "<Overdue>" when there is none to show. |
| MedMinderPresenter.ChangeMedScreen | MedMinder/Presenter.h:169-184 | displayChangeMed: "Med intrvl", then hh:mm of the interval, the edited field blinking. |
| MedMinderPresenter.DateLine | MedMinder/Presenter.h:195-220 | displayDate: "<INVALID>" alone for an unset clock (the line is not ended); otherwise yyyy-mm-dd. |
| MedMinderPresenter.TimeLines | MedMinder/Presenter.h:222-247 | displayTime: hh:mm:ss, zero-padded on a 24-hour dial, then the weekday's long name. |
| MedMinderPresenter.ZoneScreen | MedMinder/Presenter.h:249-307 | displayTimeZone, built for named zones: "TZ: " and the type label, then the zone's short name (blinking in the zone edit); another zone type shows "<unknown>". |
| MedMinderPresenter.SettingsScreen | MedMinder/Presenter.h:309-319 | displaySettings: "Contrast:" and the level on its own line, blinking in the contrast edit. |
| MedMinderPresenter.DataOps | MedMinder/Presenter.h:87-139 | displayData: home, the bold font, then the screen of the mode. |
| MedMinderPresenter.SettingsOps | MedMinder/Presenter.h:343-349 | updateDisplaySettings: the contrast is pushed on the first frame and whenever its level changed. |
| MedMinderPresenter.FrameOps | MedMinder/Presenter.h:35-45 | updateDisplay: clear when the mode changed; redraw (settings, then data) when anything changed; nothing at all for an unchanged ClockInfo. |
| MedMinderPresenter.DisplayIdempotent | MedMinder/Presenter.h:35-45 | A frame drawn twice in a row: the second draws nothing. |
| MedMinderPresenter.OverdueShownIff | MedMinder/Presenter.h:141-153 | On the countdown the screen reads "<Overdue>" exactly when the time left is the error period, and the time left otherwise. |
| MedMinderPresenter.InvalidDateStopsDateLine | MedMinder/Presenter.h:195-220 | An unset clock shows "<INVALID>" in place of the date, and the time lines still follow it on the same line. |
| MedMinderPresenter.EditedIntervalFieldBlinks | MedMinder/Presenter.h:326-330 | In the interval edit the edited field is blank exactly while blinking off, and the other field is shown. |
| MedMinderPresenter.ContrastShownIff | MedMinder/Presenter.h:309-319 | The contrast level is shown on the settings screens unless it is the field blinking off. |
| MedMinderPresenter.CountdownScreen | MedMinder/Presenter.h:141-153 | What the controller hands over on the countdown is what the screen shows: "<Overdue>" exactly when the countdown is the error period, that is, when the clock is unset or the time left is beyond the maximum interval either way. |
| MedMinderPresenter.Presenter.constructor | MedMinder/Presenter.h:18-29 | A statically allocated presenter: both ClockInfos zero. |
| MedMinderPresenter.Presenter.UpdateDisplay | MedMinder/Presenter.h:35-45 | updateDisplay: draw the frame, then remember what was drawn, whatever the mode. |
| MedMinderPresenter.Presenter.SetClockInfo | MedMinder/Presenter.h:47-49 | setClockInfo: the snapshot to draw next is the one given; nothing else changes. |
| MedMinderPresenter.Presenter.PrepareToSleep | MedMinder/Presenter.h:51-53 | prepareToSleep: the display is switched off. |
| MedMinderPresenter.Presenter.Wakeup | MedMinder/Presenter.h:55-57 | wakeup: the display is switched back on. |
| MedMinderProtoPresenter.ShouldShowFor | Presenter.h:202-206 | shouldShowFor: a field is hidden only in its own mode, while blinking off and not suppressed. |
| MedMinderProtoPresenter.NeedsUpdate | Presenter.h:214-222 | needsUpdate: the mode, the suppress flag, the date-time or the period changed, or the blink phase changed while blinking is not suppressed. |
| MedMinderProtoPresenter.PeriodText | Presenter.h:173-195 | TimePeriod::printTo: the signed hh:mm:ss of a period, "<Error>" for the error value. |
| MedMinderProtoPresenter.StandardHourMinute | Presenter.h:144-171 | TimeZone::extractStandardHourMinute: the sign of the standard offset (+1 for zero) and its magnitude split into hours and minutes. |
| MedMinderProtoPresenter.TimeZoneScreen | Presenter.h:144-171 | displayTimeZone: "UTC", the signed standard offset as +hh:mm (the sign blinks with the hour), then the DST flag; the zone of the date-time is the one shown. |
| MedMinderProtoPresenter.MedIntervalScreen | Presenter.h:179-195 | displayMedInterval: "Med intrvl", then hh:mm of the interval, the edited field blinking. |
| MedMinderProtoPresenter.DataOps | Presenter.h:57-88 | displayData: home, the lcd5x7 font at double size, then the screen of the mode. |
| MedMinderProtoPresenter.FrameOps | Presenter.h:24-33 | display: clear when the mode changed, then redraw when needsUpdate. |
| MedMinderProtoPresenter.SuppressedBlinkInvisible | Presenter.h:202-206 | While blinking is suppressed every field is shown, so the blink phase cannot change the picture: this is why needsUpdate ignores it then. |
| MedMinderProtoPresenter.SkippedRedrawIsInvisible | Presenter.h:214-222 | needsUpdate misses nothing: when it says no, the screen the presenter would draw is the one it drew for the previous info. |
| MedMinderProtoPresenter.DisplayIdempotent | Presenter.h:24-33 | A frame drawn twice in a row: the second draws nothing. |
| MedMinderProtoPresenter.TimeZoneSignShown | Presenter.h:144-171 | The offset's sign is '-' exactly for a zone west of UTC, when the hour is shown. |
| MedMinderProtoPresenter.InvalidDateTimeAlone | Presenter.h:90-142 | An unset clock shows "<INVALID>" and nothing else on the date-time screens. |
| MedMinderProtoPresenter.EditedHourBlinks | Presenter.h:202-206 | In a date-time edit, the edited field is blank exactly while blinking off; the other fields are drawn. |
| MedMinderProtoPresenter.Presenter.constructor | Presenter.h:17-18 | Presenter(): both rendering infos start at their member initializers, nothing drawn. |
| MedMinderProtoPresenter.Presenter.Display | Presenter.h:24-33 | display: draw the frame, then remember the info, whether or not it was drawn. |
| MedMinderProtoPresenter.Presenter.ClearDisplay | Presenter.h:36 | clearDisplay: one clear appended to the screen's calls. |
| MedMinderProtoPresenter.Presenter.SetMode | Presenter.h:38 | setMode: only the mode of the rendering info changes. |
| MedMinderProtoPresenter.Presenter.SetDateTime | Presenter.h:40-42 | setDateTime: only the date-time of the rendering info changes. |
| MedMinderProtoPresenter.Presenter.SetTimePeriod | Presenter.h:44-46 | setTimePeriod: only the time period of the rendering info changes. |
| MedMinderProtoPresenter.Presenter.SetSuppressBlink | Presenter.h:48-50 | setSuppressBlink: only the suppress flag of the rendering info changes. |
| MedMinderProtoPresenter.Presenter.SetBlinkShowState | Presenter.h:52-54 | setBlinkShowState: only the blink flag of the rendering info changes. |
| MedMinderProtoPresenter.DateLine | Presenter.h:90-142 | The date line: yyyy-mm-dd, each field blanked while it blinks off. |
| MedMinderProtoPresenter.TimeLine | Presenter.h:90-142 | The time line: hh:mm:ss, each field blanked while it blinks off. |
| MedMinderProtoPresenter.DateTimeScreenLayout | Presenter.h:90-142 | A set clock draws the date line, the time line and the weekday line, sixteen calls in all. |
| ModeGroups.Initial | OledClock/ModeNavigator.h:19-22 | The state after construction: the root group at index 0. |
| ModeGroups.ChangeGroup | OledClock/ModeNavigator.h:37-57 | changeGroup: from a child group, back to the root at the saved index; from the root, into the child at the current index (saving that index and starting at 0) when there is one; otherwise nowhere. |
| ModeGroups.ChangeGroupRoundTrip | OledClock/ModeNavigator.h:37-57 | Into a child group and out again is back where it started, with the index saved. |
| ModeGroups.ChangeGroupReenter | OledClock/ModeNavigator.h:37-57 | Out of a child group and back in lands in the same child group, at its first mode. |
| ModeGroups.ChangeModeCounted | OledClock/ModeNavigator.h:28-31 | The counted layout's changeMode: incrementMod over numModes. |
| ModeGroups.ChangeSibling | WorldClockLcd/Controller.h:107-113 | The zero-terminated layout's changeSiblingMode: step, and back to 0 on reaching the 0 entry. |
| ModeGroups.ChangeSiblingIsIncrementMod | WorldClockLcd/Controller.h:107-113 | Both layouts walk their siblings alike: the zero-terminated step is incrementMod over the count. |
| ModeGroups.ChangeSiblingNeverSentinel | WorldClockLcd/Controller.h:107-113 | A sibling step never lands on the 0 entry: the current mode is always a real mode. |
| MultiZoneClockController.EnterModeAction | MultiZoneClock/Controller.h:108-157 | performEnteringModeAction: a zone-name edit points at its zone and looks up the zone's registry index. |
| MultiZoneClockController.ModePressStep | MultiZoneClock/Controller.h:99-106 | handleModeButtonPress: the next sibling of the current group (wrapping to the first), then the entering action of the new mode. Nothing is committed, copied or persisted. |
| MultiZoneClockController.SaveDateTimeStep | MultiZoneClock/Controller.h:640-643 | saveDateTime: the scratch date-time is normalized in place and the clock set to it. |
| MultiZoneClockController.LeaveGroupAction | MultiZoneClock/Controller.h:273-320 | performLeavingModeGroupAction: a date-time edit sets the clock; a zone-name edit commits the scratch snapshot and persists it; a settings edit (and, in the LCD build too, ChangeInvertDisplay) persists the committed snapshot. |
| MultiZoneClockController.EnterGroupAction | MultiZoneClock/Controller.h:230-270 | performEnteringModeGroupAction: a date-time or zone-name edit starts from a copy of the committed snapshot, with the second unlatched and an unset time replaced by epoch 0 in its own zone. |
| MultiZoneClockController.ChangeGroupAndEnter | MultiZoneClock/Controller.h:181-227 | mNavigator.changeGroup(), then the entering actions of the new group and mode. |
| MultiZoneClockController.LongPressStep | MultiZoneClock/Controller.h:165-175 | handleModeButtonLongPress: the leaving action of the group (set the clock, commit the zones, or persist the settings), the change of group, and the entering actions of the group and mode entered. |
| MultiZoneClockController.EnterAndLeaveDateEdit | MultiZoneClock/Controller.h:165-175 | Long-pressing into a group whose first mode is a date-time edit and straight out again sets the clock to the committed time (epoch 0 if it was unset), returns to the same top-level mode, and persists nothing. |
| MultiZoneClockController.EnterAndLeaveZoneEdit | MultiZoneClock/Controller.h:165-175 | Long-pressing into a group whose first mode is a zone-name edit and straight out again persists the committed zones and settings unchanged. |
| MultiZoneClockController.DoubleClickStep | MultiZoneClock/Controller.h:181-227 | handleModeButtonDoubleClick: in an edit mode, change group with no leaving action, so nothing is committed or persisted; elsewhere, nothing. |
| MultiZoneClockController.IncrementField | MultiZoneClock/Controller.h:357-371 | The zoned_date_time_mutation increments of the month, day, hour and minute edits. |
| MultiZoneClockController.SettingModulus | MultiZoneClock/Controller.h:440-467 | The modulus of each settings edit: backlight 10, contrast 128, bias 8 (LCD); contrast level 10, invert 3 (OLED). |
| MultiZoneClockController.SettingsChange | MultiZoneClock/Controller.h:322-476 | The settings edit of a press: incrementMod of the edited field, every other field kept. |
| MultiZoneClockController.ZoneChange | MultiZoneClock/Controller.h:322-476 | The next zone of the registry in the edited position; zone 0 also re-expresses the scratch time in it. |
| MultiZoneClockController.ChangeStep | MultiZoneClock/Controller.h:322-476 | The switch of handleChangeButtonPress. On the date-time screen the 12/24 mode flips and is persisted. Every edit suppresses blinking. A date-time edit changes one field of the scratch time (the year wraps within the zone database's range; the second is zeroed and latched); a zone-name edit selects the next registry zone for its position; a settings edit steps its field of the committed snapshot. Other modes are left alone. |
| MultiZoneClockController.SettingsPresses | MultiZoneClock/Controller.h:440-467 | k presses in a settings edit step its field k times around its modulus and keep the zones and the 12/24 mode. |
| MultiZoneClockController.SettingsEditPeriod | MultiZoneClock/Controller.h:440-467 | As many presses as the modulus bring an in-range setting back to its value. |
| MultiZoneClockController.HourModeTogglesBack | MultiZoneClock/Controller.h:328-331 | Two presses on the date-time screen restore the 12/24 mode and persist it twice. |
| MultiZoneClockController.YearEditStaysInRange | MultiZoneClock/Controller.h:339-354 | Within the database's range, the year edit never leaves it. |
| MultiZoneClockController.ReleaseStep | MultiZoneClock/Controller.h:488-525 | handleChangeButtonRelease: leaving an edit's button lets its field blink again. |
| MultiZoneClockController.PressThenReleaseBlinks | MultiZoneClock/Controller.h:488-525 | A press and a release in an edit leave blinking unsuppressed, whatever the press did. |
| MultiZoneClockController.DateTimeStep | MultiZoneClock/Controller.h:532-571 | updateDateTime: the time of zone 0 and the sync readings from the clock; in a date-time edit the scratch second follows the clock's until the second has been zeroed. |
| MultiZoneClockController.RenderingOf | MultiZoneClock/Controller.h:594-637 | updateRenderingInfo: the scratch snapshot in the date-time and zone edits, the committed one elsewhere. |
| MultiZoneClockController.UpdateStep | MultiZoneClock/Controller.h:91-97 | update(): nothing in the Unknown mode; otherwise the clock is read, the blink timer advanced, the rendering info handed over and the display asked to redraw. |
| MultiZoneClockController.SuppressedFieldIsShown | MultiZoneClock/Controller.h:594-637 | While a field's button is held, the presenter is told to show it, whatever the blink phase. |
| MultiZoneClockController.PresentedSecond | MultiZoneClock/Controller.h:594-637 | In a date-time edit the presented second is the clock's, until the second edit zeroes it; from then on it stays 0 through every update. |
| MultiZoneClockController.DefaultInfo | MultiZoneClock/Controller.h:725-738 | setupClockInfo: 24-hour mode, the configured zones, and the build's initial settings. |
| MultiZoneClockController.RestoreStep | MultiZoneClock/Controller.h:697-722 | restoreClockInfo: a valid record (no factory reset requested) is loaded; otherwise the defaults are set up and written to the store. |
| MultiZoneClockController.ResetThenRestore | MultiZoneClock/Controller.h:73-85 | The defaults written by a factory reset are what the next restore loads. |
| MultiZoneClockController.Controller.constructor | MultiZoneClock/Controller.h:48-68 | Controller(): the navigator at the first mode of the root group and the initial state InitialCtl; the invariant holds. |
| MultiZoneClockController.Controller.Setup | MultiZoneClock/Controller.h:73-85 | setup: restore the stored info (or the defaults), then read the time. |
| MultiZoneClockController.Controller.Update | MultiZoneClock/Controller.h:91-97 | update(): the new state is UpdateStep of the old one (read the clock, track the live second, run the blink timer, hand over the rendering info), and the invariant holds. |
| MultiZoneClockController.Controller.HandleModeButtonPress | MultiZoneClock/Controller.h:99-106 | handleModeButtonPress: the new state is ModePressStep of the old one, and the invariant holds. |
| MultiZoneClockController.Controller.PerformEnteringModeAction | MultiZoneClock/Controller.h:108-157 | performEnteringModeAction: the new state is EnterModeAction of the old one. |
| MultiZoneClockController.Controller.HandleModeButtonLongPress | MultiZoneClock/Controller.h:165-175 | handleModeButtonLongPress: the new state is LongPressStep of the old one, and the invariant holds. |
| MultiZoneClockController.Controller.ChangeGroupAndEnterActions | MultiZoneClock/Controller.h:181-227 | mNavigator.changeGroup(), performEnteringModeGroupAction(), performEnteringModeAction(). |
| MultiZoneClockController.Controller.HandleModeButtonDoubleClick | MultiZoneClock/Controller.h:181-227 | Exit an edit throwing away its changes; nothing outside the edits. |
| MultiZoneClockController.Controller.PerformEnteringModeGroupAction | MultiZoneClock/Controller.h:230-270 | performEnteringModeGroupAction: the new state is EnterGroupAction of the old one. |
| MultiZoneClockController.Controller.PerformLeavingModeGroupAction | MultiZoneClock/Controller.h:273-320 | performLeavingModeGroupAction: the new state is LeaveGroupAction of the old one. |
| MultiZoneClockController.Controller.HandleChangeButtonPress | MultiZoneClock/Controller.h:322-476 | handleChangeButtonPress: the change of ChangeStep, then update() (UpdateStep); the invariant holds. |
| MultiZoneClockController.Controller.ApplyChange | MultiZoneClock/Controller.h:322-476 | The switch of handleChangeButtonPress: the new state is ChangeStep of the old one, and the invariant holds. |
| MultiZoneClockController.Controller.ChangeDateTimeField | MultiZoneClock/Controller.h:322-476 | The date-time edits of handleChangeButtonPress, on the scratch snapshot. |
| MultiZoneClockController.Controller.ChangeZoneName | MultiZoneClock/Controller.h:322-476 | The zone-name edit of handleChangeButtonPress: the next registry zone at mCurrentZone. |
| MultiZoneClockController.Controller.HandleChangeButtonRepeatPress | MultiZoneClock/Controller.h:478-486 | Repeated presses while the button is held; ignored on the date-time screen. |
| MultiZoneClockController.Controller.HandleChangeButtonRelease | MultiZoneClock/Controller.h:488-525 | handleChangeButtonRelease: the new state is ReleaseStep of the old one, and the invariant holds. |
| MultiZoneClockController.Controller.UpdateDateTime | MultiZoneClock/Controller.h:532-571 | updateDateTime: the new state is DateTimeStep of the old one, and the invariant holds. |
| MultiZoneClockController.Controller.UpdateBlinkState | MultiZoneClock/Controller.h:582-592 | updateBlinkState: only the blink timer moves, as Blink.Update says. |
| MultiZoneClockController.Controller.UpdateRenderingInfo | MultiZoneClock/Controller.h:594-637 | updateRenderingInfo: the presenter gets RenderingOf the state (the scratch snapshot in the edit modes, the blink flag folded with the suppress flag); nothing else changes. |
| MultiZoneClockController.Controller.SaveDateTime | MultiZoneClock/Controller.h:640-643 | saveDateTime: the new state is SaveDateTimeStep of the old one. |
| MultiZoneClockController.Controller.SaveClockInfo | MultiZoneClock/Controller.h:646-652 | saveClockInfo: the scratch snapshot is committed and its record appended to the EEPROM writes. |
| MultiZoneClockController.Controller.PreserveClockInfo | MultiZoneClock/Controller.h:655-662 | preserveClockInfo: the record of the given snapshot is appended to the EEPROM writes, nothing else. |
| MultiZoneClockController.Controller.RestoreClockInfo | MultiZoneClock/Controller.h:697-722 | restoreClockInfo: the new state is RestoreStep of the old one, and the invariant holds. |
| MultiZoneClockController.Controller.SetupClockInfo | MultiZoneClock/Controller.h:725-738 | setupClockInfo: the committed snapshot gets the factory defaults of DefaultInfo; nothing else changes. |
| MultiZoneClockController.ScratchEditKeepsInv | MultiZoneClock/Controller.h:322-476 | An edit of the scratch snapshot keeps the invariant while it keeps the four zones and the navigation. |
| MultiZoneClockController.DateFieldChange | MultiZoneClock/Controller.h:333-378 | A date-time edit press: blinking is suppressed and one field of the scratch time changes. The year wraps within the zone database's range; the second is zeroed and latched; the other fields step as the time library increments them. |
| MultiZoneClockInfo.ModeOf | MultiZoneClock/Controller.h:326 | The cast (Mode) mNavigator.modeId() of a build. |
| MultiZoneClockInfo.ModeIdRoundTrip | MultiZoneClock/Controller.h:326 | Every member of a build's enum is read back from its identifier. |
| MultiZoneClockInfo.ModeOfRoundTrip | MultiZoneClock/Controller.h:326 | Every identifier is read back from the member it is cast to, so the cast loses nothing. |
| MultiZoneClockInfo.WithStored | MultiZoneClock/Controller.h:665-678 | clockInfoFromStoredInfo: the stored fields of the build are replaced, nothing else. |
| MultiZoneClockInfo.StoredRoundTrip | MultiZoneClock/Controller.h:665-678 | Restoring what was stored from a snapshot gives the snapshot back. |
| MultiZoneClockInfo.RestoredRoundTrip | MultiZoneClock/Controller.h:73-85 | A record the build wrote itself (the other build's fields 0) survives a restore and a store unchanged. |
| MultiZoneClockPresenter.ShouldShowFor | MultiZoneClock/Presenter.h:178-182 | shouldShowFor: a field is hidden only in its own mode while the blink phase is off. |
| MultiZoneClockPresenter.ControllerFoldsSuppress | MultiZoneClock/Presenter.h:178-182 | The controller folds mSuppressBlink into the flag it hands over, so a field is shown whenever its button is held, whatever the blink phase. |
| MultiZoneClockPresenter.SettingsOps | MultiZoneClock/Presenter.h:195-221 | updateDisplaySettings: each setting of the build is pushed on the first frame (the previous mode is Unknown) and whenever it changed: on the LCD the backlight PWM value, the contrast and the bias; on the OLED the contrast value of the level and the inversion. |
| MultiZoneClockPresenter.AutoZoneOps | MultiZoneClock/Presenter.h:617-642 | displayAutoTimeZone: "k:" and the zone's short name (hidden while its edit blinks off), or "<unknown>". |
| MultiZoneClockPresenter.Body | MultiZoneClock/Presenter.h:249-311 | The mode dispatch of displayData: each edit shares its view's screen; other modes draw nothing. |
| MultiZoneClockPresenter.UpdateOps | MultiZoneClock/Presenter.h:79-89 | updateDisplay: a clear iff the mode changed, then the settings and the screen iff anything changed; an unchanged rendering info draws nothing. |
| MultiZoneClockPresenter.TimeLinesPrintNoNumber | MultiZoneClock/Presenter.h:373-405 | No line above the date prints a number: the hours and minutes are padded fields. |
| MultiZoneClockPresenter.DateLineYear | MultiZoneClock/Presenter.h:491-510 | The date line prints a number, the year, exactly when the year is not blinking off. |
| MultiZoneClockPresenter.YearShownIffNotBlinkedOff | MultiZoneClock/Presenter.h:178-182 | The year is printed on the date-time screens exactly when it is not blinking off. |
| MultiZoneClockPresenter.ZoneNameShownIff | MultiZoneClock/Presenter.h:617-642 | In a named zone whose name is neither of the fixed strings, the name is drawn exactly when it is not blinking off. |
| MultiZoneClockPresenter.HiddenZoneNameNotDrawn | MultiZoneClock/Presenter.h:617-642 | In a zone-name edit while blinking off, that zone's line shows its position and nothing of its name. |
| MultiZoneClockPresenter.Presenter.constructor | MultiZoneClock/Presenter.h:59-77 | Presenter(): both rendering infos zero, nothing drawn; the invariant holds. |
| MultiZoneClockPresenter.Presenter.Display | MultiZoneClock/Presenter.h:79-89 | updateDisplay: draws what changed and remembers what it drew. |
| MultiZoneClockPresenter.Presenter.SetRenderingInfo | MultiZoneClock/Presenter.h:95-97 | The controller's hand-over: the mode, the folded blink flag and a snapshot. |
| OledModeNavigator.ModeNavigator.constructor | OledClock/ModeNavigator.h:19-22 | ModeNavigator(): at the root group, first mode; the invariant holds. |
| OledModeNavigator.ModeNavigator.ChangeMode | OledClock/ModeNavigator.h:28-31 | changeMode: the next sibling, wrapping to 0; numModes calls restore the index (IncrementModPeriod). |
| OledModeNavigator.ModeNavigator.ChangeGroup | OledClock/ModeNavigator.h:37-57 | changeGroup: child to parent, or root to child, or stay. |
| OledClockController.SiblingStep | OledClock/Controller.h:87-93 | changeSiblingMode: the next entry of the group, or its first one at the 0 entry. |
| OledClockController.EnterModeAction | OledClock/Controller.h:95-108 | performEnteringModeAction: the zone-name edit looks up the scratch zone's registry index. |
| OledClockController.ModePressStep | OledClock/Controller.h:77-84 | handleModeButtonPress: the next sibling mode; no snapshot, flag or trace changes. |
| OledClockController.LeaveGroupAction | OledClock/Controller.h:177-201 | performLeavingModeGroupAction: commit the edits of the mode being left. |
| OledClockController.GroupStep | OledClock/Controller.h:129-149 | changeModeGroup followed by re-reading mMode. |
| OledClockController.EnterGroupAction | OledClock/Controller.h:152-174 | performEnteringModeGroupAction: an edit mode starts from a copy of the committed snapshot. |
| OledClockController.LongPressStep | OledClock/Controller.h:116-126 | handleModeButtonLongPress: leaving a date or time edit sets the clock to the scratch date-time; leaving the zone-name edit commits the scratch snapshot and persists it; the group changes; entering an edit mode copies the committed snapshot into the scratch one. |
| OledClockController.EnterAndLeaveDateEdit | OledClock/Controller.h:116-126 | A long press into an edit group and a long press out again, with no edit between them, sets the clock to the committed date-time and comes back to the same top-level mode. |
| OledClockController.ChangeStep | OledClock/Controller.h:203-289 | The switch of handleChangeButtonPress. In MODE_DATE_TIME the hour mode flips and is persisted. An edit press suppresses blinking and changes only the scratch snapshot: one date-time field is incremented, the second is zeroed and latched, or the next zone of the registry is selected and the scratch date-time re-expressed in it. Other modes are left alone. |
| OledClockController.HourModeTogglesBack | OledClock/Controller.h:209-212 | Two presses in MODE_DATE_TIME restore the hour mode, and the last record persisted is the original one. |
| OledClockController.ReleaseStep | OledClock/Controller.h:302-319 | handleChangeButtonRelease: the edit modes stop suppressing the blink; nothing else changes. |
| OledClockController.UpdateStep | OledClock/Controller.h:68-75 | update: nothing in MODE_UNKNOWN or while preparing to sleep; otherwise read the time, run the blink timer, hand the presenter the snapshot of the mode (the scratch one in the edit modes), and call display(). |
| OledClockController.RestoreStep | OledClock/Controller.h:420-446 | restoreClockInfo: a valid stored record, unless reset; otherwise the defaults, persisted. |
| OledClockController.Controller.constructor | OledClock/Controller.h:38-52 | Controller(): the navigator at the first mode of the root group and the initial state InitialCtl; the invariant holds. |
| OledClockController.Controller.Setup | OledClock/Controller.h:54-62 | setup: restore the stored info, then read the time. |
| OledClockController.Controller.Update | OledClock/Controller.h:68-75 | update(): the new state is UpdateStep of the old one (read the clock, run the blink timer, hand over the rendering info), and the invariant holds. |
| OledClockController.Controller.HandleModeButtonPress | OledClock/Controller.h:77-84 | handleModeButtonPress: the new state is ModePressStep of the old one, and the invariant holds. |
| OledClockController.Controller.ChangeSiblingMode | OledClock/Controller.h:87-93 | changeSiblingMode: the new state is SiblingStep of the old one, and the invariant holds. |
| OledClockController.Controller.PerformEnteringModeAction | OledClock/Controller.h:95-108 | performEnteringModeAction: the new state is EnterModeAction of the old one. |
| OledClockController.Controller.HandleModeButtonLongPress | OledClock/Controller.h:116-126 | handleModeButtonLongPress: the new state is LongPressStep of the old one, and the invariant holds. |
| OledClockController.Controller.ChangeModeGroup | OledClock/Controller.h:129-149 | changeModeGroup: the new state is GroupStep of the old one, and the invariant holds. |
| OledClockController.Controller.PerformEnteringModeGroupAction | OledClock/Controller.h:152-174 | performEnteringModeGroupAction: the new state is EnterGroupAction of the old one. |
| OledClockController.Controller.PerformLeavingModeGroupAction | OledClock/Controller.h:177-201 | performLeavingModeGroupAction: the new state is LeaveGroupAction of the old one, and the invariant holds. |
| OledClockController.Controller.HandleChangeButtonPress | OledClock/Controller.h:203-289 | handleChangeButtonPress: the change of ChangeStep, then the update() that reads the clock and redraws (UpdateStep); the invariant holds. |
| OledClockController.Controller.ApplyChange | OledClock/Controller.h:203-289 | The switch of handleChangeButtonPress: the new state is ChangeStep of the old one, and the invariant holds. |
| OledClockController.Controller.HandleChangeButtonRepeatPress | OledClock/Controller.h:291-300 | A held button repeats the press, except in MODE_DATE_TIME, where it would rewrite the EEPROM. |
| OledClockController.Controller.HandleChangeButtonRelease | OledClock/Controller.h:302-319 | handleChangeButtonRelease: the new state is ReleaseStep of the old one. |
| OledClockController.Controller.UpdateDateTime | OledClock/Controller.h:322-340 | updateDateTime: the new state is DateTimeStep of the old one. |
| OledClockController.Controller.UpdateBlinkState | OledClock/Controller.h:342-352 | updateBlinkState: only the blink timer moves, as Blink.Update says. |
| OledClockController.Controller.UpdateRenderingInfo | OledClock/Controller.h:354-379 | updateRenderingInfo: the new state is RenderStep of the old one. |
| OledClockController.Controller.SaveDateTime | OledClock/Controller.h:382-384 | saveDateTime: the clock is set to the scratch date-time. |
| OledClockController.Controller.SaveClockInfo | OledClock/Controller.h:387-393 | saveClockInfo: commit the scratch snapshot and persist it. |
| OledClockController.Controller.PreserveClockInfo | OledClock/Controller.h:396-403 | preserveClockInfo: the record of the given snapshot is appended to the EEPROM writes, nothing else. |
| OledClockController.Controller.RestoreClockInfo | OledClock/Controller.h:420-446 | restoreClockInfo: the new state is RestoreStep of the old one. |
| OledClockController.Controller.SetupClockInfo | OledClock/Controller.h:449-452 | setupClockInfo: 24-hour mode and the initial zone in the committed snapshot, nothing else. |
| OledClockController.LongPressCommits | OledClock/Controller.h:177-201 | What a long press commits: the clock write of a date or time edit, the snapshot and its EEPROM record of the zone-name edit, nothing elsewhere. |
| OledClockController.LongPressEnters | OledClock/Controller.h:152-174 | What a long press enters: an edit mode starts from a copy of the committed snapshot with the second not cleared, and the zone-name edit from the registry index of the committed zone; elsewhere the scratch snapshot, the latch and the index are kept. |
| OledClockController.Controller.LeaveChildGroup | OledClock/Controller.h:129-149 | changeModeGroup from a child group: the new state is GroupStep of the old one (back to the parent group; no action is performed). |
| OledClockController.Controller.EnterChildGroup | OledClock/Controller.h:129-149 | changeModeGroup from the root group: the new state is GroupStep of the old one (into the child group; no action is performed). |
| OledClockController.Controller.ChangeDateTimeField | OledClock/Controller.h:214-239 | The date and time edits of handleChangeButtonPress, on the scratch snapshot. |
| OledClockController.Controller.ChangeZoneName | OledClock/Controller.h:270-280 | The zone-name edit of handleChangeButtonPress: the next zone of the registry, wrapping to 0. |
| OledClockInfo.WithStored | OledClock/Controller.h:406-410 | clockInfoFromStoredInfo: overwrites the persisted fields, keeps the date-time. |
| OledClockInfo.StoredRoundTrip | OledClock/Controller.h:406-410 | Storing and restoring into the same snapshot changes nothing. |
| OledClockPresenter.ShouldShowFor | OledClock/Presenter.h:63-67 | shouldShowFor: a field is hidden only in its own mode, while blinking off and not suppressed. |
| OledClockPresenter.NeedsUpdate | OledClock/Presenter.h:75-84 | needsUpdate: any change of what is rendered, except that a change of the blink phase alone is ignored while blinking is suppressed. |
| OledClockPresenter.ManagedZoneTypeLabel | OledClock/Presenter.h:210-287 | The zone-type label: "manual", "basic" or "extd" for their kinds, "unknown" for every other kind, each iff. |
| OledClockPresenter.Body | OledClock/Presenter.h:96-130 | The mode dispatch of displayData: each edit mode shares its view's screen. |
| OledClockPresenter.DisplayOps | OledClock/Presenter.h:32-41 | display: clear iff the mode changed, then redraw iff needsUpdate. |
| OledClockPresenter.SkippedRedrawIsCurrent | OledClock/Presenter.h:75-84 | Skipping a redraw never leaves a stale screen: when needsUpdate is false the screen that would be drawn is the one already drawn. |
| OledClockPresenter.HiddenMinuteSecondNotDrawn | OledClock/Presenter.h:170-203 | A hidden minute or second is not drawn: in its edit mode, while blinking off, the screen does not depend on it. |
| OledClockPresenter.HiddenHourNotDrawn | OledClock/Presenter.h:170-203 | A hidden hour is not drawn, except through the AM/PM suffix of the 12-hour mode, which still tells the half of the day. |
| OledClockPresenter.HiddenDateFieldBlanked | OledClock/Presenter.h:149-168 | A hidden year, month or day is blanked on the date line (the weekday line below it still follows the date). |
| OledClockPresenter.ShownMinuteDrawn | OledClock/Presenter.h:170-203 | A shown minute is drawn: a different minute gives a different screen. |
| OledClockPresenter.Presenter.constructor | OledClock/Presenter.h:27-30 | Presenter(): both rendering infos zero, nothing drawn. |
| OledClockPresenter.Presenter.Display | OledClock/Presenter.h:32-41 | display: draws what changed and remembers what it was given. |
| OledClockPresenter.DisplayIdempotent | OledClock/Presenter.h:32-41 | A second display() with nothing new draws nothing. |
| OledClockPresenter.Presenter.SetRenderingInfo | OledClock/Presenter.h:43-51 | setRenderingInfo copies the mode, the two blink flags and the snapshot's three fields. |
| OneZoneClockController.ViewCyclePeriod | OneZoneClock/Controller.h:110-214 | Five presses bring a screen back, and no fewer do. |
| OneZoneClockController.DateCyclePeriod | OneZoneClock/Controller.h:110-214 | Six presses bring a date field back, and no fewer do. |
| OneZoneClockController.SettingsCyclePeriod | OneZoneClock/Controller.h:110-214 | The two settings fields alternate; the zone-name edit and MODE_UNKNOWN stay put. |
| OneZoneClockController.FamilyView | OneZoneClock/Controller.h:110-214 | The screen an edit mode belongs to; a screen is its own. |
| OneZoneClockController.NextModeKeepsFamily | OneZoneClock/Controller.h:110-214 | The mode button never leaves the current screen's family. |
| OneZoneClockController.LongPressMode | OneZoneClock/Controller.h:217-292 | The mode a long press leads to: into a screen's first edit field, or back out to the screen. |
| OneZoneClockController.LongPressRoundTrip | OneZoneClock/Controller.h:217-292 | A second long press comes back to the screen the first one left. |
| OneZoneClockController.InitChanging | OneZoneClock/Controller.h:296-301 | The changing snapshot shows the committed one: the zone is kept and an unset clock reads epoch 0. |
| OneZoneClockController.ModePressStepAsWritten | OneZoneClock/Controller.h:110-214 | handleModeButtonPress as written: the next mode goes into the committed snapshot only; entering the zone-name edit looks up the scratch zone's registry index. |
| OneZoneClockController.ModePressStep | OneZoneClock/Controller.h:110-214 | handleModeButtonPress as the sibling clocks write it: the scratch snapshot takes the new mode too. |
| OneZoneClockController.LongPressStep | OneZoneClock/Controller.h:217-292 | handleModeButtonLongPress. From a screen with edits: the scratch snapshot starts from the committed one (an unset clock reads epoch 0), and the zone edit looks up its registry index. Out of a date edit: the scratch date-time is normalized and the clock set to it. Out of the zone edit: the scratch snapshot is committed and persisted. Out of a settings edit: the committed snapshot is persisted. Then the scratch snapshot takes the new mode. |
| OneZoneClockController.EnterAndLeaveDateEdit | OneZoneClock/Controller.h:217-292 | Into the date edit and straight out again: the clock is set to the normalized committed time (epoch 0 for an unset clock), and the committed snapshot and the EEPROM are untouched. |
| OneZoneClockController.EnterAndLeaveZoneEdit | OneZoneClock/Controller.h:217-292 | Into the zone edit and straight out again: the committed zone is kept and persisted, and only an unset clock's time changes (to epoch 0). |
| OneZoneClockController.DoubleClickStep | OneZoneClock/Controller.h:307-349 | handleModeButtonDoubleClick: leave an edit for its screen, saving nothing. |
| OneZoneClockController.DoubleClickDiscards | OneZoneClock/Controller.h:307-349 | A double click lands on the screen a long press would, but discards the edit. |
| OneZoneClockController.IncrementField | OneZoneClock/Controller.h:372-389 | The zoned_date_time_mutation call of each date edit but the second's. |
| OneZoneClockController.ChangeStep | OneZoneClock/Controller.h:351-476 | The switch of handleChangeButtonPress, after both snapshots start suppressing the blink. On the date-time screen the 12/24 mode flips and is persisted. A date edit increments one scratch field (the second is zeroed and latched instead); the zone edit selects the next registry zone and re-expresses the scratch time in it. The settings edits step the committed contrast level through 0..9 and the invert setting through its five values. |
| OneZoneClockController.HourModeTogglesBack | OneZoneClock/Controller.h:360-363 | Two presses on the date-time screen restore the 12/24 mode, and the last record persisted says so. |
| OneZoneClockController.ContrastEditPeriod | OneZoneClock/Controller.h:447-449 | Ten presses in the contrast edit bring a level of 0..9 back, and fewer do not. |
| OneZoneClockController.ReleaseStep | OneZoneClock/Controller.h:489-522 | handleChangeButtonRelease: every edit mode stops suppressing the blink on both snapshots. |
| OneZoneClockController.PresenterStep | OneZoneClock/Controller.h:572-599 | updatePresenter: the scratch snapshot in the date and zone edits, the committed one otherwise. |
| OneZoneClockController.BlinkStep | OneZoneClock/Controller.h:101-105 | updateBlinkState: both snapshots flip their blink phase, and the presenter gets the shown one. |
| OneZoneClockController.DateTimeStep | OneZoneClock/Controller.h:540-570 | updateDateTime: the live time in the committed zone and the system clock's sync readings; in a date edit the scratch second follows the live one until it has been zeroed. |
| OneZoneClockController.UpdateStep | OneZoneClock/Controller.h:94-99 | update: nothing in MODE_UNKNOWN; otherwise read the time, hand the presenter the snapshot of the mode, and redraw. The snapshot handed over always carries the controller's mode. |
| OneZoneClockController.StaleBlinkFieldAsWritten | OneZoneClock/Controller.h:110-214 | As written, a mode press inside the date edit hands the presenter a snapshot that still names the previous field: after moving from the year to the month, the year keeps blinking and the month never does. |
| OneZoneClockController.PressedModeIsPresented | OneZoneClock/Controller.h:110-214 | With the scratch snapshot kept in step, the presenter is always shown the mode just entered. |
| OneZoneClockController.RestoreStep | OneZoneClock/Controller.h:665-691 | restoreClockInfo: a valid stored record, unless reset; otherwise the defaults, persisted. |
| OneZoneClockController.ResetThenRestore | OneZoneClock/Controller.h:76-88 | A factory reset persists exactly the defaults it installs, so the next boot reads them back. |
| OneZoneClockController.Controller.constructor | OneZoneClock/Controller.h:48-74 | Controller(): the date-time view in the committed snapshot, everything else zero, no outputs; the invariant holds. |
| OneZoneClockController.Controller.Setup | OneZoneClock/Controller.h:76-88 | setup: restore the stored info, then read the time. |
| OneZoneClockController.Controller.Update | OneZoneClock/Controller.h:94-99 | update: the new state is UpdateStep of the old one, and the invariant holds. |
| OneZoneClockController.Controller.UpdateBlinkState | OneZoneClock/Controller.h:101-105 | updateBlinkState: the new state is BlinkStep of the old one, and the invariant holds. |
| OneZoneClockController.Controller.HandleModeButtonPress | OneZoneClock/Controller.h:110-214 | handleModeButtonPress as corrected in Findings: the new state is ModePressStep of the old one, with the scratch snapshot's mode kept in step (ModePressStepAsWritten is the code as written). |
| OneZoneClockController.Controller.HandleModeButtonLongPress | OneZoneClock/Controller.h:217-292 | handleModeButtonLongPress: the new state is LongPressStep of the old one, and the invariant holds. |
| OneZoneClockController.Controller.InitChangingClock | OneZoneClock/Controller.h:296-301 | initChangingClock: an unset clock starts its edit at epoch 0. |
| OneZoneClockController.Controller.HandleModeButtonDoubleClick | OneZoneClock/Controller.h:307-349 | handleModeButtonDoubleClick: the new state is DoubleClickStep of the old one, and the invariant holds. |
| OneZoneClockController.Controller.HandleChangeButtonPress | OneZoneClock/Controller.h:351-476 | handleChangeButtonPress: the change of ChangeStep, then the update() that reads the clock and redraws (UpdateStep); the invariant holds. |
| OneZoneClockController.Controller.ApplyChange | OneZoneClock/Controller.h:351-476 | The switch of handleChangeButtonPress: the new state is ChangeStep of the old one, and the invariant holds. |
| OneZoneClockController.Controller.ChangeScratch | OneZoneClock/Controller.h:351-476 | The date-time and zone-name edits of handleChangeButtonPress, once blinking is suppressed. |
| OneZoneClockController.Controller.HandleChangeButtonRepeatPress | OneZoneClock/Controller.h:478-487 | A held button repeats the press, except on the date-time screen, where it would rewrite the EEPROM. |
| OneZoneClockController.Controller.HandleChangeButtonRelease | OneZoneClock/Controller.h:489-522 | handleChangeButtonRelease: the new state is ReleaseStep of the old one, and the invariant holds. |
| OneZoneClockController.Controller.UpdateDateTime | OneZoneClock/Controller.h:540-570 | updateDateTime: the new state is DateTimeStep of the old one, and the invariant holds. |
| OneZoneClockController.Controller.UpdatePresenter | OneZoneClock/Controller.h:572-599 | updatePresenter: the new state is PresenterStep of the old one. |
| OneZoneClockController.Controller.SaveDateTime | OneZoneClock/Controller.h:602-605 | saveDateTime: normalize the scratch date-time and set the clock to it. |
| OneZoneClockController.Controller.SaveChangingClockInfo | OneZoneClock/Controller.h:608-614 | saveChangingClockInfo: commit the scratch snapshot, then persist it. |
| OneZoneClockController.Controller.SaveClockInfo | OneZoneClock/Controller.h:617-624 | saveClockInfo: persist the committed snapshot's stored fields. |
| OneZoneClockController.Controller.RestoreClockInfo | OneZoneClock/Controller.h:665-691 | restoreClockInfo: the new state is RestoreStep of the old one, and the invariant holds. |
| OneZoneClockController.Controller.SetupClockInfo | OneZoneClock/Controller.h:694-710 | setupClockInfo: 24-hour mode, the initial zone and contrast, no inversion. |
| OneZoneClockController.EnterEditStep | OneZoneClock/Controller.h:217-292 | The long press from a screen that has edits: the scratch snapshot is prepared for the edit. |
| OneZoneClockController.LeaveEditStep | OneZoneClock/Controller.h:217-292 | The long press from an edit, or from a screen without edits: the edit is committed and the committed mode goes back to its screen. |
| OneZoneClockController.Controller.EnterEdit | OneZoneClock/Controller.h:217-292 | handleModeButtonLongPress from a view that has edits. |
| OneZoneClockController.Controller.LeaveEdit | OneZoneClock/Controller.h:217-292 | handleModeButtonLongPress from an edit, or from a view without edits. |
| OneZoneClockInfo.WithStored | OneZoneClock/Controller.h:627-643 | clockInfoFromStoredInfo: the four stored fields are replaced, nothing else. |
| OneZoneClockInfo.StoredRoundTrip | OneZoneClock/Controller.h:627-643 | Restoring what was stored from a snapshot gives the snapshot back. |
| OneZoneClockPresenter.ShouldShowFor | OneZoneClock/Presenter.h:201-205 | shouldShowFor: a field is hidden only in its own mode, while blinking off and not suppressed. |
| OneZoneClockPresenter.Body | OneZoneClock/Presenter.h:270-334 | The mode dispatch of displayPrimary: each edit mode shares its screen's drawing. |
| OneZoneClockPresenter.SettingsOps | OneZoneClock/Presenter.h:213-241 | updateDisplaySettings: the contrast value of the level and the inversion are pushed on the first frame (the previous mode is MODE_UNKNOWN) and whenever they change, and not otherwise. |
| OneZoneClockPresenter.UpdateOps | OneZoneClock/Presenter.h:91-105 | updateDisplay: clear iff the mode changed, then push the settings and redraw iff the snapshot changed. |
| OneZoneClockPresenter.HiddenMinuteSecondNotDrawn | OneZoneClock/Presenter.h:418-446 | A snapshot that differs only in a hidden minute or second draws the same screen. |
| OneZoneClockPresenter.HiddenHourNotDrawn | OneZoneClock/Presenter.h:418-446 | A hidden hour is not drawn, except through the AM/PM suffix of the 12-hour mode, which still tells the half of the day. |
| OneZoneClockPresenter.ShownSecondDrawn | OneZoneClock/Presenter.h:418-446 | A shown second is drawn: a different second gives a different screen. |
| OneZoneClockPresenter.HiddenSettingNotDrawn | OneZoneClock/Presenter.h:517-593 | A hidden contrast level or invert setting is not drawn. |
| OneZoneClockPresenter.ShownInvertDrawn | OneZoneClock/Presenter.h:555-575 | A shown invert setting is drawn: two of the five settings never look alike. |
| OneZoneClockPresenter.HiddenZoneNameNotDrawn | OneZoneClock/Presenter.h:452-515 | A hidden zone name is not drawn: the zone-name edit shows the same screen for every zone of the type. |
| OneZoneClockPresenter.Presenter.constructor | OneZoneClock/Presenter.h:65-89 | Presenter(): both snapshots zero, nothing drawn. |
| OneZoneClockPresenter.Presenter.UpdateDisplay | OneZoneClock/Presenter.h:91-105 | updateDisplay: draw UpdateOps of the new and previous snapshot, then remember the snapshot. |
| OneZoneClockPresenter.DisplayIdempotent | OneZoneClock/Presenter.h:91-105 | A second updateDisplay() with no new snapshot draws nothing. |
| OneZoneClockPresenter.Presenter.SetClockInfo | OneZoneClock/Presenter.h:107-109 | setClockInfo: the snapshot to draw next is the one given; nothing else changes. |
| ScreenDrivers.SettingLine | MultiZoneClock/Presenter.h:644-686 | A labelled setting on its own line (println of the value), or println(' ') while its edit blinks off. |
| TextScreens.TwelveHour | OledClock/Presenter.h:170-203 | The 12-hour dial hour of a 24-hour hour: 0 becomes 12, 13..23 lose 12. |
| TextScreens.TwelveHourWithHalfIsInjective | OledClock/Presenter.h:170-203 | The 12-hour dial hour and the AM/PM half together determine the 24-hour hour. |
| TextScreens.TwentyFourHour | OledClock/Presenter.h:170-203 | The inverse reading: the 24-hour hour of a dial hour in a half of the day. |
| TextScreens.TwelveHourRoundTrip | OledClock/Presenter.h:170-203 | Every hour of the day is read back from its dial hour and half. |
| TextScreens.ClampLevel | MultiZoneClock/Presenter.h:242-245 | A level above 9 is read as 9. |
| TextScreens.ContrastValue | MultiZoneClock/Presenter.h:242-245 | The contrast value of a level: the table entry at the clamped level. |
| TextScreens.BacklightValue | MultiZoneClock/Presenter.h:234-237 | The backlight PWM value of a level: 1023 less the table entry at the clamped level. |
| TextScreens.ContrastValueMonotone | MultiZoneClock/Presenter.h:242-245 | A higher contrast level never gives a dimmer screen, and every level is visible. |
| TextScreens.BacklightValueAntitone | MultiZoneClock/Presenter.h:234-237 | A higher backlight level never gives a larger (dimmer) PWM value, and stays in 10 bits. |
| TextScreens.DateIndicator | MultiZoneClock/Presenter.h:347-362 | The date-change indicator next to a second zone: its local date before, after, or equal to the first's. |
| TextScreens.DateIndicatorSwap | MultiZoneClock/Presenter.h:347-362 | Swapping the two zones turns '<' into '>' and back. |
| TextScreens.InvertLabel | OneZoneClock/Presenter.h:555-575 | The label of an invert-display setting, whose five values are off (0), on (1), minutely (2), hourly (3) and daily (4); any other value reads "<error>". |
| TextScreens.DateText | OledClock/Presenter.h:149-168 | displayDate: yyyy-mm-dd, each field blanked while hidden. |
| TextScreens.AmPm | OledClock/Presenter.h:197-201 | The AM/PM suffix: only in 12-hour mode, "AM" before noon. |
| TextScreens.TimeText | OledClock/Presenter.h:170-203 | displayTime: hh:mm:ss then a space and, in 12-hour mode, AM or PM. The hour is space-padded on the 12-hour dial and zero-padded otherwise. |
| TextScreens.HiddenHourNotDrawn | OledClock/Presenter.h:170-203 | A hidden hour is not drawn, except that in 12-hour mode the AM/PM suffix still tells which half of the day it is in. |
| TextScreens.ShownHourDrawn | OledClock/Presenter.h:170-203 | A shown hour is drawn: two different hours give different time lines. |
| TextScreens.OledFontOps | MedMinder/Presenter.h:69-80 | setFont(size): 0 is the small font at 1X, 1 the bold font at 1X, 2 the bold font at 2X; other sizes do nothing. |
| TextScreens.ZoneTypeLabel | MedMinder/Presenter.h:258-272 | The zone-type label of a presenter that knows only the three plain zone types. |
| TimePeriods.FromSeconds | MedMinder/Controller.h:546-560 | TimePeriod(int32 seconds): the sign, then the magnitude split into hours, minutes and seconds; the hours are stored in a uint8. |
| TimePeriods.DecomposeSeconds | MedMinder/Controller.h:546-560 | Below 256 hours, hours, minutes and seconds of a magnitude add up to it again. |
| TimePeriods.FromSecondsRoundTrip | MedMinder/Controller.h:546-560 | A length of less than 256 hours survives the trip through a TimePeriod. |
| TimePeriods.SplitSeconds | MedMinder/Controller.h:546-560 | The fields of a well-formed period are recovered from its length by division. |
| TimePeriods.ToSecondsRoundTrip | MedMinder/Controller.h:546-560 | A well-formed period is rebuilt exactly from its length, unless it is a negative zero, which the constructor never produces. |
| TimePeriods.IncrementHour | MedMinder/Controller.h:322-325 | time_period_mutation::incrementHour: the hour moves on modulo the limit, the minutes, seconds and sign are kept; the error value has no fields to edit and stays an error. |
| TimePeriods.IncrementMinute | MedMinder/Controller.h:327-330 | time_period_mutation::incrementMinute: the minute moves on modulo 60, the rest is kept. |
| TimePeriods.ZeroSecond | MedMinder/Controller.h:296-302 | second(0): the seconds dropped, the rest kept. |
| TimePeriods.IncrementHourLength | MedMinder/Controller.h:322-325 | One press of the hour edit lengthens a positive interval by an hour, except at the limit, where the hours start again from zero. |
| TimePeriods.IncrementMinuteLength | MedMinder/Controller.h:327-330 | One press of the minute edit lengthens a positive interval by a minute, or wraps the minutes to zero. |
| Widths.U8 | LedClockTiny/Controller.h:259-261 | Conversion to uint8: the value modulo 256. |
| Widths.U16 | MultiZoneClock/Controller.h:583-584 | Conversion to uint16: the value modulo 65536. |
| Widths.I8 | LedClock/Presenter.h:81 | Conversion to int8 (two's complement wrap-around). |
| Widths.I16 | LedClockTiny/Controller.h:305-306 | Conversion to int16 (two's complement wrap-around). |
| Widths.U32 | MedMinder/Controller.h:438 | Conversion to uint32: the value modulo 2^32. |
| Widths.I32 | MedMinder/Controller.h:551-553 | Conversion to int32 (two's complement wrap-around). |
| Widths.I32Periodic | MedMinder/Controller.h:551-553 | Adding a multiple of 2^32 does not change the int32 value. |
| Widths.U32Offset | MedMinder/Controller.h:438 | A uint32 differs from the value it was converted from by a multiple of 2^32. |
| Widths.DivTrunc100 | ledclockgo/presenter.go:139-143 | Integer division by 100 as Go and C++ do it: the quotient is truncated toward zero. |
| Widths.ToggleLowBit | MultiZoneClock/Controller.h:329 | x ^ 1 on a non-negative integer: the lowest bit flipped, the others kept. |
| Widths.ToggleLowBitInvolution | MultiZoneClock/Controller.h:329 | Toggling twice restores the value. |
| WorldClockController.ViewCyclePeriod | WorldClock/Controller.h:113-173 | Three presses bring a screen back, and no fewer do. |
| WorldClockController.DateCyclePeriod | WorldClock/Controller.h:113-173 | Five presses bring a date field back, and no fewer do: the second is not in the ring. |
| WorldClockController.SettingsCyclePeriod | WorldClock/Controller.h:113-173 | Four presses bring a setting back, and no fewer do. |
| WorldClockController.FamilyView | WorldClock/Controller.h:113-173 | The screen an edit mode belongs to; a screen is its own. |
| WorldClockController.NextModeKeepsFamily | WorldClock/Controller.h:113-173 | The mode button never leaves the current screen's family. |
| WorldClockController.LongPressMode | WorldClock/Controller.h:176-226 | The mode a long press leads to: into a screen's first edit field, or back out to the screen. |
| WorldClockController.Mirror | WorldClock/Controller.h:223-225 | The mode copied from clock 0 to the scratch snapshot and the two other clocks. |
| WorldClockController.ModePressStep | WorldClock/Controller.h:113-173 | handleModeButtonPress: the next mode, in all four snapshots. |
| WorldClockController.ModePressOnlyMirrorsMode | WorldClock/Controller.h:113-173 | A mode press changes the mode of all four snapshots and nothing else. |
| WorldClockController.InitChanging | WorldClock/Controller.h:271-276 | initChangingClock: an unset clock starts its edit at epoch 0 in its zone. |
| WorldClockController.EnterDateEdit | WorldClock/Controller.h:183-188 | A long press on the date-time screen: the scratch snapshot starts from clock 0, the second no longer latched. |
| WorldClockController.EnterSettingsEdit | WorldClock/Controller.h:190-194 | A long press on the settings screen: the scratch snapshot starts from clock 0. |
| WorldClockController.LeaveDateEdit | WorldClock/Controller.h:196-204 | A long press in a date edit: the scratch date-time is normalized and the clock set to it. |
| WorldClockController.LeaveSettingsEdit | WorldClock/Controller.h:206-217 | A long press in a settings edit: clock 0's settings are persisted. |
| WorldClockController.LongPressSwitch | WorldClock/Controller.h:176-226 | The switch of handleModeButtonLongPress, before the mode is copied to the other snapshots. |
| WorldClockController.LongPressStep | WorldClock/Controller.h:176-226 | handleModeButtonLongPress: into the first edit field of a screen, or out of an edit saving it; then the mode is copied to all four snapshots. |
| WorldClockController.LongPressEntersEdit | WorldClock/Controller.h:176-226 | Entering an edit: the scratch snapshot is clock 0, with an unset time replaced by epoch 0; nothing is written. |
| WorldClockController.LongPressSavesDate | WorldClock/Controller.h:176-226 | Leaving a date edit: the clock is set to the normalized scratch time; the clocks keep their settings. |
| WorldClockController.LongPressSavesSettings | WorldClock/Controller.h:176-226 | Leaving a settings edit: clock 0's settings are persisted; the clock is not set. |
| WorldClockController.EnterAndLeaveDateEdit | WorldClock/Controller.h:176-226 | Into the date edit and straight out again: the clock is set to the normalized time of clock 0 (epoch 0 for an unset clock), and clock 0 and the EEPROM are untouched. |
| WorldClockController.DoubleClickStep | WorldClock/Controller.h:232-262 | handleModeButtonDoubleClick: leave an edit for its screen, saving nothing; only clock 0 takes the mode. |
| WorldClockController.DoubleClickDiscards | WorldClock/Controller.h:232-262 | A double click lands on the screen a long press would and writes nothing; the settings already changed in the three clocks stay changed, unsaved, until the next save. |
| WorldClockController.Suppressed | WorldClock/Controller.h:282-285 | All four snapshots start suppressing the blink. |
| WorldClockController.IncrementField | WorldClock/Controller.h:288-308 | The zoned_date_time_mutation call of each date edit, or the zeroed second. |
| WorldClockController.SettingChange | WorldClock/Controller.h:278-356 | A settings press on one clock: 12/24 flips, the colon toggles, the contrast steps mod 10, the inversion mod 5. |
| WorldClockController.SettingChangeAgrees | WorldClock/Controller.h:278-356 | The same change on two clocks with the same settings leaves them with the same settings. |
| WorldClockController.DatePress | WorldClock/Controller.h:288-308 | A date edit press: one scratch field changes; the zeroed second is latched. |
| WorldClockController.SettingsPress | WorldClock/Controller.h:309-345 | A settings press: the same change on all three clocks. |
| WorldClockController.ChangeStep | WorldClock/Controller.h:278-356 | The switch of handleChangeButtonPress, after all four snapshots start suppressing the blink. |
| WorldClockController.ChangePressInDateEdit | WorldClock/Controller.h:278-356 | A change press in a date edit changes one scratch field, latches a zeroed second, and suppresses the blink. |
| WorldClockController.ChangePressInSettingsEdit | WorldClock/Controller.h:278-356 | A change press in a settings edit changes the same setting, the same way, on all three clocks, and not the scratch snapshot. |
| WorldClockController.SettingChangeKeepsBlink | WorldClock/Controller.h:278-356 | A settings change and the blink suppression touch different fields. |
| WorldClockController.ChangePressOnScreen | WorldClock/Controller.h:278-356 | On a screen a change press only suppresses the blink. |
| WorldClockController.HourModeTogglesBack | WorldClock/Controller.h:309-313 | Two presses in the hour-mode edit bring the 12/24 mode of every clock back. |
| WorldClockController.ReleaseStep | WorldClock/Controller.h:362-388 | handleChangeButtonRelease: every edit mode stops suppressing the blink on all four snapshots. |
| WorldClockController.PressReleaseUnsuppresses | WorldClock/Controller.h:362-388 | A press and its release in an edit mode leave the blink as it was before the button was held. |
| WorldClockController.InvertStateFor | WorldClock/Controller.h:427-459 | calculateInvertState: the minutely and hourly settings invert on odd minute + hour (hour + day) parity, the daily one from 07:00 to 18:59; the other settings are their own state. |
| WorldClockController.MinutelyInversionAlternates | WorldClock/Controller.h:427-459 | The minutely inversion flips every minute within an hour and holds across the hour, so that a digit is not always shown the same way. |
| WorldClockController.HourlyInversionAlternates | WorldClock/Controller.h:427-459 | The hourly inversion flips every hour within a day and holds across midnight into the next day. |
| WorldClockController.Source | WorldClock/Controller.h:461-507 | The snapshot whose mode and time the screens show: the scratch one in the edit modes. |
| WorldClockController.PresentWith | WorldClock/Controller.h:461-507 | The hand-over of updatePresenter with a given invert state: the three clocks take the source's mode and instant (clock 0 its date-time, the others the same epoch seconds in their own zones) and the invert state, and each presenter is given its clock. |
| WorldClockController.PresentStep | WorldClock/Controller.h:461-507 | updatePresenter with the inversion taken from the setting the clocks carry (and show on the settings screen), at the time shown. |
| WorldClockController.PresentStepAgreesOutsideSettingsEdits | WorldClock/Controller.h:461-507 | Outside the settings edits the source carries clock 0's setting, and the two hand-overs are the same. |
| WorldClockController.DateTimeStep | WorldClock/Controller.h:391-417 | updateDateTime: each clock reads the instant in its own zone; in a date edit the scratch second follows clock 0's until it has been zeroed. |
| WorldClockController.UpdateStep | WorldClock/Controller.h:88-93 | update: nothing in MODE_UNKNOWN; otherwise read the time and hand the three presenters their clocks, through the corrected PresentStep of Findings (UpdateStepAsWritten is the code as written). |
| WorldClockController.PresentersAgree | WorldClock/Controller.h:461-507 | After an update the three presenters are shown the controller's mode and the same instant, each in its own zone, and all apply the inversion that the setting they show calls for at that instant. |
| WorldClockController.StaleInversionAsWritten | WorldClock/Controller.h:461-507 | As written, the inversion does not follow the invert setting being edited: one press in the invert edit makes every screen read "on" while none is inverted, until the edit is saved. |
| WorldClockController.ChangePressStep | WorldClock/Controller.h:278-356 | handleChangeButtonPress: the change, an update, and a redraw of the first screen, through the corrected PresentStep of Findings (PresentStepAsWritten is the code as written). |
| WorldClockController.HeldButtonSuppressesBlink | WorldClock/Controller.h:95-102 | While the change button is held in an edit mode, every screen is handed a snapshot that suppresses the blink. |
| WorldClockController.BlinkStep | WorldClock/Controller.h:95-102 | updateBlinkState: all four snapshots flip their blink phase, and the presenters are handed their clocks through the corrected PresentStep of Findings. |
| WorldClockController.AllSettings | WorldClock/Controller.h:309-330 | The three clocks carry the same four display settings. |
| WorldClockController.RestoreStep | WorldClock/Controller.h:530-556 | restoreClockInfo: a valid stored record goes to all three clocks; otherwise the factory settings, persisted. |
| WorldClockController.SaveThenRestore | WorldClock/Controller.h:515-556 | What a save writes, a restore puts back: the settings of every clock are unchanged. |
| WorldClockController.Controller.constructor | WorldClock/Controller.h:32-59 | The three clocks in their zones, with their names, on the date-time screen. |
| WorldClockController.Controller.Setup | WorldClock/Controller.h:62-68 | setup: restore the stored settings, then read the time. |
| WorldClockController.Controller.Update | WorldClock/Controller.h:88-93 | update: the new state is UpdateStep of the old one (with the corrected PresentStep of Findings), and the invariant holds. |
| WorldClockController.Controller.UpdateBlinkState | WorldClock/Controller.h:95-102 | updateBlinkState: the new state is BlinkStep of the old one (with the corrected PresentStep of Findings), and the invariant holds. |
| WorldClockController.Controller.UpdatePresenterScreen | WorldClock/Controller.h:461-507 | updatePresenter0/1/2: one screen redraws from the ClockInfo it was last handed. |
| WorldClockController.Controller.HandleModeButtonPress | WorldClock/Controller.h:113-173 | handleModeButtonPress: the new state is ModePressStep of the old one, and the invariant holds. |
| WorldClockController.Controller.HandleModeButtonLongPress | WorldClock/Controller.h:176-226 | handleModeButtonLongPress: the new state is LongPressStep of the old one, and the invariant holds. |
| WorldClockController.Controller.ApplyLongPress | WorldClock/Controller.h:176-226 | The switch of handleModeButtonLongPress: the new state is LongPressSwitch of the old one, and the invariant holds. |
| WorldClockController.Controller.LeaveDateEditing | WorldClock/Controller.h:196-204 | The long press in a date edit: the new state is LeaveDateEdit of the old one. |
| WorldClockController.Controller.LeaveSettingsEditing | WorldClock/Controller.h:206-217 | The long press in a settings edit: the new state is LeaveSettingsEdit of the old one. |
| WorldClockController.Controller.EnterDateEditing | WorldClock/Controller.h:183-188 | The long press on the date-time screen: the new state is EnterDateEdit of the old one. |
| WorldClockController.Controller.EnterSettingsEditing | WorldClock/Controller.h:190-194 | The long press on the settings screen: the new state is EnterSettingsEdit of the old one. |
| WorldClockController.Controller.HandleModeButtonDoubleClick | WorldClock/Controller.h:232-262 | handleModeButtonDoubleClick: the new state is DoubleClickStep of the old one, and the invariant holds. |
| WorldClockController.Controller.InitChangingClock | WorldClock/Controller.h:271-276 | initChangingClock: an unset clock starts its edit at epoch 0. |
| WorldClockController.Controller.HandleChangeButtonPress | WorldClock/Controller.h:278-356 | handleChangeButtonPress: the new state is ChangePressStep of the old one (with the corrected PresentStep of Findings), and the invariant holds. |
| WorldClockController.Controller.HandleChangeButtonRepeatPress | WorldClock/Controller.h:358-360 | handleChangeButtonRepeatPress: the new state is ChangePressStep of the old one (with the corrected PresentStep of Findings), and the invariant holds. |
| WorldClockController.Controller.ApplyChange | WorldClock/Controller.h:278-356 | The switch of handleChangeButtonPress: the new state is ChangeStep of the old one. |
| WorldClockController.Controller.ChangeDateField | WorldClock/Controller.h:278-356 | A date edit press: the new state is DatePress of the old one (only the scratch snapshot's field moves). |
| WorldClockController.Controller.ChangeSetting | WorldClock/Controller.h:278-356 | A settings press: the new state is SettingsPress of the old one (the setting moves in all three clocks). |
| WorldClockController.Controller.HandleChangeButtonRelease | WorldClock/Controller.h:362-388 | handleChangeButtonRelease: the new state is ReleaseStep of the old one, and the invariant holds. |
| WorldClockController.Controller.SuppressBlink | WorldClock/Controller.h:95-102 | suppressBlink is set to the given value on all four snapshots; nothing else changes. |
| WorldClockController.Controller.UpdateDateTime | WorldClock/Controller.h:391-417 | updateDateTime: the new state is DateTimeStep of the old one. |
| WorldClockController.Controller.UpdatePresenter | WorldClock/Controller.h:461-507 | updatePresenter as corrected in Findings: the inversion follows the setting the clocks carry (PresentStepAsWritten is the code as written). |
| WorldClockController.Controller.SaveDateTime | WorldClock/Controller.h:510-513 | saveDateTime: normalize the scratch date-time and set the clock to it. |
| WorldClockController.Controller.SaveClockInfo | WorldClock/Controller.h:515-520 | saveClockInfo / preserveClockInfo: persist clock 0's settings. |
| WorldClockController.Controller.RestoreClockInfo | WorldClock/Controller.h:530-556 | restoreClockInfo: the new state is RestoreStep of the old one, and the invariant holds. |
| WorldClockController.Controller.ClockInfoFromStoredInfo | WorldClock/Controller.h:578-600 | clockInfoFromStoredInfo (and setupClockInfo, with the factory settings): the same settings in all three clocks. |
| WorldClockInfo.WithSettings | WorldClock/Controller.h:578-600 | The four stored settings replaced in a snapshot, nothing else. |
| WorldClockInfo.SettingsRoundTrip | WorldClock/Controller.h:578-620 | Putting back a snapshot's own settings changes nothing. |
| WorldClockPresenter.ShouldShowFor | WorldClock/Presenter.h:328-332 | shouldShowFor: a field is hidden only in its own mode, while blinking off and not suppressed. |
| WorldClockPresenter.Colon | WorldClock/Presenter.h:136-189 | The colon of the large time: steady unless the blinking colon is on, then following the blink phase. |
| WorldClockPresenter.ChangeableDateTimeScreen | WorldClock/Presenter.h:202-274 | displayChangeableDateTime: yyyy-mm-dd, hh:mm:ss with AM/PM in 12-hour mode, the weekday, and the place line; the field being edited blinks. |
| WorldClockPresenter.ValueIf | WorldClock/Presenter.h:276-319 | A setting's value after its caption, or nothing while its edit blinks off. |
| WorldClockPresenter.DataOps | WorldClock/Presenter.h:102-134 | writeDisplayData: home, then the screen of the mode; the edit modes share their screen's layout. |
| WorldClockPresenter.SettingsOps | WorldClock/Presenter.h:60-73 | writeDisplaySettings: the contrast value of the level and the inversion are pushed on the first frame (the previous mode is MODE_UNKNOWN) and whenever they change, and not otherwise. |
| WorldClockPresenter.FrameOps | WorldClock/Presenter.h:26-44 | display: MODE_UNKNOWN only clears the screen; otherwise a mode change clears it, and a changed ClockInfo is drawn and its settings pushed. |
| WorldClockPresenter.NextPrev | WorldClock/Presenter.h:26-44 | The ClockInfo display() leaves as the last one drawn: unchanged for MODE_UNKNOWN. |
| WorldClockPresenter.DisplayIdempotent | WorldClock/Presenter.h:26-44 | A second display() of the same ClockInfo draws nothing, outside MODE_UNKNOWN. |
| WorldClockPresenter.ColonBlinksOnlyWhenEnabled | WorldClock/Presenter.h:328-332 | The large time's colon: always drawn with the blinking colon off; with it on, drawn exactly in the blink's show phase. |
| WorldClockPresenter.YearShownIff | WorldClock/Presenter.h:202-274 | The year is drawn in the date edit, except in the year edit's blink-off phase. |
| WorldClockPresenter.SettingShownIff | WorldClock/Presenter.h:276-319 | The 12/24 mode is drawn on the settings screen except in its edit's blink-off phase. |
| WorldClockPresenter.InvertLineShowsSetting | WorldClock/Presenter.h:276-319 | The invert setting's line shows the label of the setting, not of the current inversion. |
| WorldClockPresenter.EditedFieldShownWhileHeld | WorldClock/Presenter.h:328-332 | While the change button is held in an edit mode, the field being edited is drawn on the first screen, whatever the blink phase. |
| WorldClockPresenter.Presenter.constructor | WorldClock/Presenter.h:23-24 | Both snapshots start in MODE_UNKNOWN, so the first frame pushes the contrast and the inversion. |
| WorldClockPresenter.Presenter.Display | WorldClock/Presenter.h:26-44 | display: draw FrameOps of the new and previous snapshot, then remember it as NextPrev says. |
| WorldClockPresenter.Presenter.SetClockInfo | WorldClock/Presenter.h:50-52 | setClockInfo: the snapshot to draw next is the one given; nothing else changes. |
| WorldClockLcdController.SiblingStep | WorldClockLcd/Controller.h:107-113 | changeSiblingMode: the next entry of the group, or its first one at the 0 entry. |
| WorldClockLcdController.EnterModeAction | WorldClockLcd/Controller.h:115-161 | performEnteringModeAction: a zone-name edit points at its scratch zone and looks up its registry index. |
| WorldClockLcdController.ModePressStep | WorldClockLcd/Controller.h:97-104 | handleModeButtonPress: the next sibling mode; no snapshot, flag or trace changes. |
| WorldClockLcdController.LeaveGroupAction | WorldClockLcd/Controller.h:239-282 | performLeavingModeGroupAction: leaving a date-time edit sets the clock, leaving a zone-name edit commits the scratch snapshot and persists it, leaving a settings edit persists the committed snapshot. |
| WorldClockLcdController.GroupStep | WorldClockLcd/Controller.h:182-202 | changeModeGroup followed by re-reading mMode. |
| WorldClockLcdController.EnterGroupAction | WorldClockLcd/Controller.h:205-236 | performEnteringModeGroupAction: a date-time or zone-name edit starts from a copy of the committed snapshot. |
| WorldClockLcdController.LongPressStep | WorldClockLcd/Controller.h:169-179 | handleModeButtonLongPress: leave the group's edits, change group, and enter the new mode and group. |
| WorldClockLcdController.LongPressCommits | WorldClockLcd/Controller.h:169-179 | What a long press commits: the edits of the group it leaves are saved (the clock set, or the snapshot persisted), and the group it enters starts from a fresh copy of the committed snapshot. |
| WorldClockLcdController.EnterAndLeaveDateEdit | WorldClockLcd/Controller.h:169-179 | A long press into a date-time edit group and a long press out again, with no edit between them, sets the clock to the committed date-time and comes back to the same top-level mode. |
| WorldClockLcdController.EnterAndLeaveZoneEdit | WorldClockLcd/Controller.h:169-179 | A long press into a zone-name edit group and out again, with no edit between them, leaves the committed snapshot as it was and persists it. |
| WorldClockLcdController.DateTimeChange | WorldClockLcd/Controller.h:284-439 | The zoned_date_time_mutation step of a date-time edit other than the second; the year stays in the database's range. |
| WorldClockLcdController.SettingModulus | WorldClockLcd/Controller.h:402-432 | The modulus of each settings edit: backlight 10, contrast 128, bias 8 (LCD); contrast level 10 (OLED). |
| WorldClockLcdController.SettingsChange | WorldClockLcd/Controller.h:284-439 | The settings edit of a press: incrementMod of the edited field, every other field kept. |
| WorldClockLcdController.BacklightValue | WorldClockLcd/Controller.h:457-460 | getBacklightValue: the PWM value of a level; the pin is active low, so 1023 less the table entry. |
| WorldClockLcdController.ContrastValue | WorldClockLcd/Controller.h:486-489 | getContrastValue: the table entry of a contrast level, levels above 9 read as 9. |
| WorldClockLcdController.ZoneChange | WorldClockLcd/Controller.h:284-439 | The next zone of the registry in the edited position; zone 0 also re-expresses the scratch time in it. |
| WorldClockLcdController.HourModePress | WorldClockLcd/Controller.h:290-293 | The press on the date-time screen: the 12/24 mode flips and is persisted. |
| WorldClockLcdController.SettingsPress | WorldClockLcd/Controller.h:402-432 | A press in a settings edit: the field steps and its new value is pushed to the display. |
| WorldClockLcdController.ChangeStep | WorldClockLcd/Controller.h:284-439 | The switch of handleChangeButtonPress; what each case does is stated by ChangePressEffects. |
| WorldClockLcdController.ChangePressEffects | WorldClockLcd/Controller.h:284-439 | What a change press does. On the date-time screen the 12/24 mode flips and is persisted. Every edit suppresses blinking. A date-time edit changes one field of the scratch time (the second is zeroed and latched); a zone-name edit selects the next registry zone for its position; a settings edit steps its field of the committed snapshot and pushes it to the display. Other modes are left alone. |
| WorldClockLcdController.ZonePressSelectsNextZone | WorldClockLcd/Controller.h:380-400 | A press in the edit of zone k selects the next zone of the registry (wrapping to the first) for position k only; editing zone 0 also re-expresses the scratch time in the new zone, since the displayed time is kept in zone 0. |
| WorldClockLcdController.HourModeTogglesBack | WorldClockLcd/Controller.h:290-293 | Two presses on the date-time screen restore the 12/24 mode and persist it twice. |
| WorldClockLcdController.BacklightPressPushesNewLevel | WorldClockLcd/Controller.h:403-409 | A press on the LCD's backlight edit pushes the PWM value of the new level at once: the next brighter table entry, or the dimmest after level 9. |
| WorldClockLcdController.YearEditStaysInRange | WorldClockLcd/Controller.h:295-317 | A year edit inside the zone database's range stays inside it, wrapping from the last year to the first. |
| WorldClockLcdController.ReleaseStep | WorldClockLcd/Controller.h:502-535 | handleChangeButtonRelease: the edit modes stop suppressing the blink; nothing else changes. |
| WorldClockLcdController.PressThenReleaseBlinks | WorldClockLcd/Controller.h:502-535 | A change press in an edit followed by its release leaves blinking on, whatever the flag was before. |
| WorldClockLcdController.DateTimeStep | WorldClockLcd/Controller.h:542-570 | updateDateTime: the live time in zone 0; the unlatched scratch second of a date-time edit follows it. |
| WorldClockLcdController.DateTimeKeepsInv | WorldClockLcd/Controller.h:542-570 | Reading the clock into the committed snapshot keeps the controller invariant. |
| WorldClockLcdController.RenderStep | WorldClockLcd/Controller.h:593-634 | updateRenderingInfo: the scratch snapshot in the date-time and zone-name edits, the committed one otherwise. |
| WorldClockLcdController.UpdateStep | WorldClockLcd/Controller.h:88-95 | update: nothing in MODE_UNKNOWN or while preparing to sleep; otherwise read the time, run the blink timer, hand the presenter the snapshot of the mode, and call display(). |
| WorldClockLcdController.UpdateKeepsInv | WorldClockLcd/Controller.h:88-95 | update keeps the invariant: the time and the blink timer change, the navigation and the snapshots' shapes do not. |
| WorldClockLcdController.HeldButtonSuppressesBlink | WorldClockLcd/Controller.h:581-591 | While a change button is held in an edit, every field shows whatever the blink phase: the handover carries the suppression. |
| WorldClockLcdController.FactoryInfo | WorldClockLcd/Controller.h:720-732 | setupClockInfo: the factory snapshot: 24-hour mode, the display zones, and the build's initial settings. |
| WorldClockLcdController.RestoreStep | WorldClockLcd/Controller.h:691-717 | restoreClockInfo: a factory reset installs and persists the factory snapshot. Otherwise the record read from the EEPROM is used whether or not its CRC matched: the read's result is overwritten with true, so the buffer (bad or not) is restored and nothing is persisted. |
| WorldClockLcdController.ResetThenRestore | WorldClockLcd/Controller.h:63-82 | A factory reset followed by a normal restart restores the factory snapshot from the record it persisted. |
| WorldClockLcdController.SetupPushes | WorldClockLcd/Controller.h:63-82 | setup: after the restore, the settings of the build are pushed to the display. |
| WorldClockLcdController.Controller.constructor | WorldClockLcd/Controller.h:44-58 | Controller(): the navigator at the first mode of the root group and the initial state InitialCtl; the invariant holds. |
| WorldClockLcdController.Controller.Setup | WorldClockLcd/Controller.h:63-82 | setup: restore the stored info, push the settings to the display, then read the time. The stored record's fields are uint8 and its zones an array of NUM_TIME_ZONES. |
| WorldClockLcdController.Controller.Update | WorldClockLcd/Controller.h:88-95 | update(): the new state is UpdateStep of the old one (read the clock, run the blink timer, hand over the rendering info), and the invariant holds. |
| WorldClockLcdController.Controller.HandleModeButtonPress | WorldClockLcd/Controller.h:97-104 | handleModeButtonPress: the new state is ModePressStep of the old one, and the invariant holds. |
| WorldClockLcdController.Controller.ChangeSiblingMode | WorldClockLcd/Controller.h:107-113 | changeSiblingMode: the new state is SiblingStep of the old one. |
| WorldClockLcdController.Controller.PerformEnteringModeAction | WorldClockLcd/Controller.h:115-161 | performEnteringModeAction: the new state is EnterModeAction of the old one. |
| WorldClockLcdController.Controller.HandleModeButtonLongPress | WorldClockLcd/Controller.h:169-179 | handleModeButtonLongPress: the new state is LongPressStep of the old one, and the invariant holds. |
| WorldClockLcdController.Controller.ChangeGroupAndEnterActions | WorldClockLcd/Controller.h:182-202 | changeModeGroup(), performEnteringModeGroupAction(), performEnteringModeAction(). |
| WorldClockLcdController.Controller.ChangeModeGroup | WorldClockLcd/Controller.h:182-202 | changeModeGroup: the navigator moves as ChangeGroup says, and the mode is re-read from it. |
| WorldClockLcdController.Controller.PerformEnteringModeGroupAction | WorldClockLcd/Controller.h:205-236 | performEnteringModeGroupAction: the new state is EnterGroupAction of the old one. |
| WorldClockLcdController.Controller.PerformLeavingModeGroupAction | WorldClockLcd/Controller.h:239-282 | performLeavingModeGroupAction: the new state is LeaveGroupAction of the old one. |
| WorldClockLcdController.Controller.HandleChangeButtonPress | WorldClockLcd/Controller.h:284-439 | handleChangeButtonPress: the change of the mode, then update() at once to avoid jitter. |
| WorldClockLcdController.Controller.ApplyChange | WorldClockLcd/Controller.h:284-439 | The switch of handleChangeButtonPress: the new state is ChangeStep of the old one. |
| WorldClockLcdController.Controller.ChangeDateTimeField | WorldClockLcd/Controller.h:284-439 | The date-time cases of handleChangeButtonPress. |
| WorldClockLcdController.Controller.ChangeZoneName | WorldClockLcd/Controller.h:284-439 | The zone-name cases: the next registry zone into the pointed-at scratch zone. |
| WorldClockLcdController.Controller.ChangeSetting | WorldClockLcd/Controller.h:284-439 | The settings cases: incrementMod of the field, pushed to the display at once. |
| WorldClockLcdController.Controller.UpdateBacklight | WorldClockLcd/Controller.h:442-450 | updateBacklight: one backlight push of the PWM value of the level. |
| WorldClockLcdController.Controller.UpdateLcdContrast | WorldClockLcd/Controller.h:462-469 | updateLcdContrast: one contrast push of the LCD's contrast. |
| WorldClockLcdController.Controller.UpdateBias | WorldClockLcd/Controller.h:471-478 | updateBias: one bias push of the LCD's bias. |
| WorldClockLcdController.Controller.UpdateContrast | WorldClockLcd/Controller.h:481-484 | updateContrast: one contrast push of the OLED's value for the level. |
| WorldClockLcdController.Controller.HandleChangeButtonRepeatPress | WorldClockLcd/Controller.h:492-500 | A held button repeats the press, except on the date-time screen, where it would rewrite the EEPROM. |
| WorldClockLcdController.Controller.HandleChangeButtonRelease | WorldClockLcd/Controller.h:502-535 | handleChangeButtonRelease: the new state is ReleaseStep of the old one. |
| WorldClockLcdController.Controller.UpdateDateTime | WorldClockLcd/Controller.h:542-570 | updateDateTime: the new state is DateTimeStep of the old one. |
| WorldClockLcdController.Controller.UpdateBlinkState | WorldClockLcd/Controller.h:581-591 | updateBlinkState: only the blink timer moves, as Blink.Update says. |
| WorldClockLcdController.Controller.UpdateRenderingInfo | WorldClockLcd/Controller.h:593-634 | updateRenderingInfo: the new state is RenderStep of the old one. |
| WorldClockLcdController.Controller.SaveDateTime | WorldClockLcd/Controller.h:637-639 | saveDateTime: the clock is set to the scratch date-time. |
| WorldClockLcdController.Controller.SaveClockInfo | WorldClockLcd/Controller.h:642-648 | saveClockInfo: commit the scratch snapshot and persist it. |
| WorldClockLcdController.Controller.PreserveClockInfo | WorldClockLcd/Controller.h:651-658 | preserveClockInfo: the record of the given snapshot is appended to the EEPROM writes, nothing else. |
| WorldClockLcdController.Controller.RestoreClockInfo | WorldClockLcd/Controller.h:691-717 | restoreClockInfo: the result of the read is overwritten with true, so only a factory reset uses the defaults. |
| WorldClockLcdController.Controller.SetupClockInfo | WorldClockLcd/Controller.h:720-732 | setupClockInfo: the committed snapshot gets the factory defaults of FactoryInfo; nothing else changes. |
| WorldClockLcdInfo.WithStored | WorldClockLcd/Controller.h:661-673 | clockInfoFromStoredInfo: the stored fields of the build are replaced, nothing else. |
| WorldClockLcdInfo.StoredRoundTrip | WorldClockLcd/Controller.h:661-673 | Restoring what was stored from a snapshot gives the snapshot back. |
| WorldClockLcdInfo.RestoredRoundTrip | WorldClockLcd/Controller.h:63-82 | A record the build wrote itself survives a restore and a store unchanged. |
| WorldClockLcdPresenter.Received | WorldClockLcd/Presenter.h:90-107 | setRenderingInfo: the settings of the build, then the mode, the flags, the 12/24 mode, the zones and the time. |
| WorldClockLcdPresenter.ShouldShowFor | WorldClockLcd/Presenter.h:210-214 | shouldShowFor: a field is hidden only in its own mode, while blinking is not suppressed and its phase is off. |
| WorldClockLcdPresenter.Visible | WorldClockLcd/Presenter.h:222-241 | What a frame shows: the rendering info with the blink phase read as "shown" while blinking is suppressed and the other build's settings zeroed. |
| WorldClockLcdPresenter.NeedsUpdateIffVisibleChanged | WorldClockLcd/Presenter.h:222-241 | needsUpdate is exactly "what the frame shows changed", in both directions. |
| WorldClockLcdPresenter.SuppressedBlinkFlipNotDrawn | WorldClockLcd/Presenter.h:210-214 | While a button is held, the blink timer's flips redraw nothing. |
| WorldClockLcdPresenter.AutoZoneOps | WorldClockLcd/Presenter.h:610-636 | displayAutoTimeZone: "k:" and the zone's short name (hidden while its edit blinks off), or "<unknown>". |
| WorldClockLcdPresenter.Body | WorldClockLcd/Presenter.h:243-297 | The mode dispatch of displayData: each edit shares its view's screen; other modes draw nothing. |
| WorldClockLcdPresenter.FrameOps | WorldClockLcd/Presenter.h:75-84 | display: a clear iff the mode changed, then the frame iff needsUpdate; a frame in which nothing shown changed emits no call at all. |
| WorldClockLcdPresenter.TimeLinesPrintNoNumber | WorldClockLcd/Presenter.h:358-390 | No line above the date prints a number: the hours and minutes are padded fields. |
| WorldClockLcdPresenter.DateLineYear | WorldClockLcd/Presenter.h:477-496 | The date line prints a number, the year, exactly when the year is not blinking off. |
| WorldClockLcdPresenter.YearShownIffNotBlinkedOff | WorldClockLcd/Presenter.h:210-214 | On the date-time screens the year is printed exactly when it is not blinking off: always outside the year edit and while the button is held, and in the on phase of the blink otherwise. |
| WorldClockLcdPresenter.ZoneNameShownIff | WorldClockLcd/Presenter.h:610-636 | In a named zone whose name is neither of the fixed strings, the name is drawn exactly when it is not blinking off. |
| WorldClockLcdPresenter.SettingShownIff | WorldClockLcd/Presenter.h:638-672 | Each settings line shows its value exactly when that setting is not blinking off. |
| WorldClockLcdPresenter.EditedFieldShownAfterPress | WorldClockLcd/Presenter.h:210-214 | The controller and the presenter together: after a change press in an edit mode and the update() that follows it, the field being edited is drawn, whatever the phase of the blink. |
| WorldClockLcdPresenter.Presenter.constructor | WorldClockLcd/Presenter.h:61-73 | Presenter(): both rendering infos zero, nothing drawn; the invariant holds. |
| WorldClockLcdPresenter.Presenter.Display | WorldClockLcd/Presenter.h:75-84 | display: draws what changed and remembers what it was given. |
| WorldClockLcdPresenter.Presenter.SetRenderingInfo | WorldClockLcd/Presenter.h:90-107 | setRenderingInfo: the rendering info becomes Received of the handed-over values (the LCD build also keeps the previous settings to compare). |
| WorldClockLcdPresenter.Presenter.SetBrightness | WorldClockLcd/Presenter.h:111-113 | setBrightness: the PWM value on the LCD's backlight pin. |
| WorldClockLcdPresenter.Presenter.SetContrastValue | WorldClockLcd/Presenter.h:116-118 | setContrast: the contrast is pushed to the LCD. |
| WorldClockLcdPresenter.Presenter.SetBiasValue | WorldClockLcd/Presenter.h:121-123 | setBias: the bias is pushed to the LCD. |
| ZoneEdits.NextRegistryIndex | MultiZoneClock/Controller.h:424-427 | The registry index after a zone-name press: uint16 ++, then 0 at the registry size. |
| ZoneEdits.RegistryWalkPeriod | MultiZoneClock/Controller.h:424-427 | size presses walk the whole registry and come back to the starting zone. |
| ZoneEdits.EpochZeroFallback | OneZoneClock/Controller.h:296-301 | initChangingClock: an error date-time (the clock was never set) becomes epoch 0 in the same zone; a valid one is kept. |
| ZoneEdits.NextYear | MultiZoneClock/Controller.h:339-354 | The year after the edited one, kept within the zone database's [startYear, untilYear). |
| ZoneEdits.NextYearIsIncrementModOffset | MultiZoneClock/Controller.h:339-354 | Within the database's range the year edit is incrementModOffset over the range, so it never leaves it. |

## Left out

- The AceTime library itself (epoch conversions, zone conversion, normalization, the zone_date_time and time_offset mutations, the zone registry and abbreviations) is a set of parameters (`AceTime.TimeLib`), not a definition; properties that rest on it hold for any implementation.
- The hardware and the system: `millis()`, the system clock, NTP, the DS3231 RTC, the EEPROM with its CRC, the button debouncing, and the TM1637, SSD1306 and PCD8544 drivers. Their inputs are parameters; their outputs are traces of calls, not pixels or bytes.
- The Go main loops with goroutines, and the device and button wiring of the Go clocks; only main.go's single-threaded loop is modelled (`GoMain`).
- Floating-point temperature and humidity of the DHT22 sensor; the builds modelled have it switched off.
- The text of the about and version screens, and the font metrics; a whole screen whose text layout is not modelled is one `Op`.
- Controller.h (the top-level LED prototype): `mSecondFieldCleared` is never set, so every date-time edit follows the live second; saveClockInfo is never called by a handler. Both are modelled as written.
- Presenter.h (the top-level MedMinder prototype): the DST flag of the rendering info is the offset being non-zero.
- ChristmasClock: its Presenter.h has no setRenderingInfo or display, which its Controller.h calls, so the controller side keeps the handed-over values as a trace. The modes kChangeTimeZone and kViewVersion that its Presenter.h names are not declared, and the brightness is not normalized on a first boot; the model keeps both as written. The time-zone view is unreachable from the mode rings.
- LedClock: the presenter's second and brightness cases name kViewMinuteSecond, a mode the enum does not declare, so those modes draw nothing; the brightness is never pushed to the module; a blink flip redraws the same picture; LedDisplay::BLINK_STYLE is a parameter. The date-time and zone views are unreachable.
- LedClockTiny: ClockInfo.h does not declare the mode, blink and DST fields the controller uses; they are modelled as used. TIME_STD_OFFSET_MINUTES and TIME_DST_OFFSET_MINUTES are parameters. The StoredInfo offset fields are neither set nor read, and the DST flag is never set.
- LedClockTinyController.Controller.Update: the early return of updateDisplay in kUnknown is not modelled, because the constructor starts in a view and no button leads to kUnknown.
- LedClockTiny: the weekday edit sets the clock back by the time spent editing, and the held blink carries into the next edit; both are modelled as written.
- ledclockgo/controller.go: committing a brightness edit writes the date-time copied at edit entry to the RTC, so the clock is set back by the time spent in the edit; modelled as written.
- WorldClockLcd: restoreClockInfo overwrites the restored validity flag with true; modelled as written.
- MultiZoneClock: its Presenter.h takes a ClockInfo through setClockInfo/updateDisplay, while its Controller.h calls setRenderingInfo/display with a mode, a blink flag and a ClockInfo; the presenter is modelled over that rendering info, with the blink flag folded with the suppress flag as the controller computes it.
- MedMinder: its ClockInfo.h, StoredInfo.h and config.h are older than its Controller.h (no mode, contrast or zone fields); the model follows the fields the Controller and Presenter use. MAX_MED_INTERVAL_HOURS and OLED_INITIAL_CONTRAST are constructor parameters, and the fields of the TimePeriod error value read as 0.
- OneZoneClock: its ClockInfo.h lacks the mode, blink, invert-state and sync fields the controller uses; they are modelled as used, with the automatic invert settings numbered 2, 3 and 4. The LCD branch of its Presenter.h is not part of this model. OLED_INITIAL_CONTRAST is a constructor parameter.
- WorldClock: its Controller.h and Presenter.h use a contrast table that neither defines; the 0..9 to 25..255 table of the OLED clocks is used.
- main.go uses clock-mode constants that no file of the program declares; they are numbered in the order of updateDisplay's cases.
- LedClockTiny: its Controller.h hands the snapshot over with setRenderingInfo, while its Presenter.h declares only setClockInfo; the model hands the snapshot to the presenter as setClockInfo does.
- LedClockTiny: its Presenter.h compares ClockInfo values with `!=`, which no file declares for ClockInfo; the model compares the whole record, including the blink and DST flags.
- LedClock: its StoredInfo.h holds only the hour mode and the zone, while its Controller.h saves and restores a brightness through it; the model's StoredInfo has the brightness field the controller uses.
- WorldClock: its ClockInfo.h declares only the Off, On and Auto invert settings and none of the mode, blink, suppress, invert-state and date-time fields its Controller.h and Presenter.h use; the model adds those fields and numbers Minutely, Hourly and Daily 2, 3 and 4.
- MultiZoneClock: its ClockInfo.h has no prevSync, nextSync or syncStatusCode fields, which its Controller.h sets and its Presenter.h shows; the model adds them.
- MedMinderController.SetupStep: installs the defaults before persisting them (the corrected setupClockInfo of Findings); SetupClockInfoAsWritten is the code as written.
- MedMinderController.Controller.Setup: runs SetupStep, so a first boot persists the defaults (the corrected setupClockInfo of Findings); SetupClockInfoAsWritten is the code as written.
- MedMinderController.Controller.SetupClockInfoDefaults: follows the corrected SetupClockInfo of Findings, defaults before persisting; SetupClockInfoAsWritten is the code as written.
- OneZoneClockController.Controller.HandleModeButtonPress: follows the corrected ModePressStep of Findings, which moves the scratch snapshot's mode too; ModePressStepAsWritten is the code as written.
- WorldClockController.UpdateStep: presents through the corrected PresentStep of Findings, which takes the inversion from the committed settings; UpdateStepAsWritten is the code as written.
- WorldClockController.ChangePressStep: presents through the corrected PresentStep of Findings; PresentStepAsWritten is the code as written.
- WorldClockController.BlinkStep: presents through the corrected PresentStep of Findings; PresentStepAsWritten is the code as written.
- WorldClockController.Controller.Update: runs UpdateStep, so it presents through the corrected PresentStep of Findings; UpdateStepAsWritten is the code as written.
- WorldClockController.Controller.UpdateBlinkState: runs BlinkStep, so it presents through the corrected PresentStep of Findings; PresentStepAsWritten is the code as written.
- WorldClockController.Controller.HandleChangeButtonPress: runs ChangePressStep, so it presents through the corrected PresentStep of Findings; PresentStepAsWritten is the code as written.
- WorldClockController.Controller.HandleChangeButtonRepeatPress: runs ChangePressStep, so it presents through the corrected PresentStep of Findings; PresentStepAsWritten is the code as written.
- WorldClockController.Controller.UpdatePresenter: follows the corrected PresentStep of Findings; PresentStepAsWritten is the code as written.

## Findings

| source | as written | input that shows it | evidently intended | confidence | as-written member | corrected member |
|---|---|---|---|---|---|---|
| OneZoneClock/Controller.h:110-214 | handleModeButtonPress puts the next mode into the committed snapshot only; in a date-time edit the scratch snapshot, which the presenter is handed, keeps the previous mode | a mode press in ChangeYear: the controller moves to ChangeMonth, the presenter is still told ChangeYear, so the year keeps blinking | the scratch snapshot takes the mode too, as in the sibling clocks | not executed | OneZoneClockController.StaleBlinkFieldAsWritten | OneZoneClockController.PressedModeIsPresented |
| WorldClock/Controller.h:464-499 | updatePresenter computes the invert state from the scratch snapshot's invert setting, which is stale during a settings edit | one change press in the invert edit with inversion off: every screen reads "on" while none is inverted, until the edit is saved | the inversion follows the setting the clocks carry and show | not executed | WorldClockController.StaleInversionAsWritten | WorldClockController.PresentersAgree |
| MedMinder/Controller.h:569-578 | setupClockInfo persists the clock's record before installing the defaults | a first boot with no valid record: the record written has a zero interval and a zero start time, so the next boot restores those instead of a one-day interval from now | the defaults are installed, then persisted | not executed | MedMinderController.SetupAsWrittenPersistsStaleRecord | MedMinderController.FirstBootSurvivesReboot |
