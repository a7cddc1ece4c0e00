# HomeWind AMOLED display firmware: a Dafny model of its UI and power logic

HomeWind is the firmware of a small round AMOLED touch display (ESP32, LVGL)
that shows a heart-rate sensor, a cadence (CSC) sensor and up to four fans.
It also lets the user switch the fans on and off by tapping them. This
project models the firmware's state logic and proves properties of it:

- **Power state machine** (`src/powersave.c`): ACTIVE dims after 8 s without
  activity. DIMMED enters soft powersave after 20 s through a deferred one-shot
  timer. Any user activity returns to ACTIVE. A lock freezes the machine while
  the boot and AP screens are up. Soft powersave shows a breathing backlight,
  driven by ten fixed-point easing curves. It also shows a mirror of the
  sensor summary, which redraws only what changed.
- **Main screen** (`src/homewind_ui.c`): the sensor store and its
  change-guarded setters, and the render gate that skips widget updates off
  the main screen or under the settings modal. It also covers the dirty
  caches of the HR card and the fan pills, the CSC style guard, and the
  formatted-number caches. Further parts:
  - the modal's open/close flags and the refresh it owes;
  - the fan tap handler;
  - the fan pill's colour cross-fade;
  - the fan counts and the full refresh.
- **Board support** (`src/lcd_bsp.c`, `src/FT3168.cpp`):
  - the flush-area rounder and the clamp on the render task's sleep;
  - the touch callback that polls the controller every third call;
  - the accelerometer rotation with hysteresis and a two-sample debounce;
  - the touch point decoding and the I2C register-write framing.

The whole device is one immutable `State.System` value. Every handler is a
pure function from a `System` to an `Out`: the next `System` plus the log of
effects it caused, in order. The logged effects are renders that carry what a
widget shows, backlight writes, screen loads and animation starts and stops.
LVGL, the backlight driver, FreeRTOS and the clock are outside the model. A
tick count is a parameter, and a hardware read is a parameter holding the
bytes the device returned.

The model follows the code where the code and its comments or header
disagree. In particular:

- the gate decides "main screen shown" from the active screen;
- the deferred soft-powersave callback does not look at the current state;
- the timer's touch branch wakes only from DIMMED;
- hiding the settings overlay leaves the modal flag set;
- the powersave mirror is overwritten without drawing outside soft powersave;
- `homewind_set_fan` stores the on-flag even for an inactive fan;
- the three "sine" easings are the quadratic formulas;
- the HR value cache (`hr_value_str_cached`) and the two powersave number caches (`powersave_hr_cached`, `powersave_csc_cached`) are seeded with the key 0xFFFF and the text "--", while the cadence cache starts at 0 and "0 RPM". The HR value seed is used up when the main screen is built: creating the HR value label formats the stored value outside the gate;
- `powersave_lock` does not change the screen shown.

Lemmas state each of these as it is (`Power.DeferralSurvivesActivity`,
`Power.WakeWithModalOpen`, `Mirror.StaleLabelAfterReentry`,
`Setters.SetFanKeepsOnFlag`, `Breathing.SineIsQuadratic`,
`Labels.SentinelPrintsSeed`, `Ui.BootHrCacheIsExact`).

Modules:
- `Ints`: fixed-width integers and `uint32_t` wrap-around.
- `Text`: `%d` and the name buffers.
- `Color`: channels and the cross-fade.
- `Breathing`: easing, the breathing path and the backlight writer.
- `State`: the record and the events.
- `Labels`: the texts and caches.
- `Mirror`: `update_powersave_icons`.
- `Ui`: gate, widgets, refresh and modal.
- `Setters`: the public setters and the toggle animation.
- `Power`: the state machine.
- `Input`: the touch handlers.
- `Touch`: FT3168.
- `Lcd`: rounder, delay clamp and touch limiter.
- `Rotation`: IMU rotation.

## Model

| member | source | states |
|---|---|---|
| Ints.Sub32 | src/powersave.c:391 | `now - last_activity_time` in `uint32_t`: the exact difference when no wrap happened, the difference plus 2^32 otherwise |
| Ints.ElapsedAcrossWrap | src/powersave.c:391 | the elapsed time is right across a wrap of the 32-bit tick counter |
| Text.Decimal | src/homewind_ui.c:492-515 | `%d` of a non-negative number is a non-empty digit string, with a leading zero only for 0 |
| Text.DecimalRoundTrip | src/homewind_ui.c:492-515 | reading the printed digits back gives the number |
| Text.DecimalInjective | src/homewind_ui.c:492-515 | two numbers print alike exactly when they are equal |
| Text.TruncateName | src/homewind_ui.c:1142-1144 | the 31-byte `strncpy` into a 32-byte buffer keeps at most 31 bytes, keeps a short name whole, keeps a long name's first 31 bytes, and a name given as a byte string stays one (`Text.Bytes`: one character per byte, so a UTF-8 name is given as its encoded bytes) |
| Color.Pack | src/homewind_ui.c:275 | `lv_color_make(r, g, b)` puts each channel where the channel extraction reads it back |
| Color.PackChannels | src/homewind_ui.c:255-262 | splitting a colour into its three bytes and packing them again gives the colour back |
| Color.DivRes | src/homewind_ui.c:266-268 | C's signed `/ 1024` truncates toward zero: the quotient times 1024 lies between 0 and the dividend, within one step of it |
| Color.Mix | src/homewind_ui.c:266-271 | one channel of the cross-fade starts on the start colour, ends on the end colour, and stays between them in between |
| Color.MixBetween | src/homewind_ui.c:266-268 | the truncated step is 0 at value 0, the full difference at 1024, and never overshoots in between |
| Color.Interpolate | src/homewind_ui.c:247-277 | `fan_bg_color_anim_cb` shows the start colour at value 0 and the end colour at 1024 |
| Color.InterpolateBetween | src/homewind_ui.c:264-271 | every channel stays between its start and end value during the animation |
| Breathing.ApplyEasing | src/powersave.c:100-181 | every curve maps 0..1024 into 0..1024, fixes both ends, and linear or unknown curves are the identity |
| Breathing.EaseRawInRange | src/powersave.c:100-181 | every curve's raw value already lies in 0..1024 (the final clamp never acts) and the curve fixes 0 and 1024 |
| Breathing.EaseMonotone | src/powersave.c:100-181 | every curve is non-decreasing in time |
| Breathing.SineIsQuadratic | src/powersave.c:150-175 | the three "sine" curves compute the quadratic-out, quadratic-in and quadratic-in-out formulas |
| Breathing.NormTime | src/powersave.c:192-195 | the normalised time `(t * 1024) / d` in `uint32_t`, capped, lies in 0..1024 and is 0 at the start |
| Breathing.PathValue | src/powersave.c:197-218 | the breath's progress lies in 0..1024, is 0 at both ends and full on the hold plateau |
| Breathing.BrightnessOf | src/powersave.c:221-223 | progress maps onto the 80..120 band, 0 to 80 and 1024 to 120 |
| Breathing.BreathingPath | src/powersave.c:186-226 | `breathing_path_cb` returns a level in 80..120: 120 for a zero duration, 80 at the start, 120 on the hold plateau |
| Breathing.BreathEndsAtMinimum | src/powersave.c:186-226 | at the end of a breath whose `time * 1024` does not wrap, the level is back at 80 |
| Breathing.ConfiguredBreathPlateau | src/powersave.c:23 | with the configured 6000 ms breath, every time from 2403 to 2999 ms shows the maximum level |
| Breathing.PathShape | src/powersave.c:197-218 | the waveform rises through inhale and hold and falls through exhale |
| Breathing.AnimCallback | src/powersave.c:230-244 | `brightness_anim_cb` clamps to a byte and writes the backlight exactly when the value differs from the last one written |
| Breathing.AnimRunFaithful | src/powersave.c:230-244 | over any run of values, no two successive writes are equal, the first differs from the previous one, and the backlight ends on the clamp of the last value |
| Breathing.AnimFirstFullIsSilent | src/powersave.c:232 | with `last_brightness` seeded at 255, a first request for 255 writes nothing |
| Labels.FormatRoundTrip | src/homewind_ui.c:492-515 | every number format can be read back: "--" stands for an HR value of 0 only, and the cadence text is the digits followed by " RPM" |
| Labels.FormatInjective | src/homewind_ui.c:492-515 | distinct values print differently in every format |
| Labels.Lookup | src/homewind_ui.c:492-515 | the cache reformats only on a changed key, keeps a sound cache sound, shows the formatted value unless the key is the seed sentinel, and once its text matches its key (or the key changes) it shows the formatted value for every later value |
| Labels.SentinelPrintsSeed | src/powersave.c:56-59 | a cache seeded with key 0xFFFF shows "--" instead of "65535" when asked for 0xFFFF |
| Labels.FanSummaryRoundTrip | src/powersave.c:558-578 | the fan slot reads "--" exactly when no fan is configured, and otherwise both counts can be read back from "on/total" |
| Labels.HrInactiveCaptionInjective | src/homewind_ui.c:587-595 | the caption of a disconnected HR sensor ends in "Not Connected" and tells different names apart |
| Labels.HrViewOf | src/homewind_ui.c:535-621 | the HR card shows a reading exactly for a connected sensor, with its value and name, and "Not Configured" when not configured |
| Labels.CscStatusDistinguishes | src/homewind_ui.c:687-756 | the CSC status line tells the three states apart: a digit-led cadence, "Not Connected" or "Not Configured" |
| Labels.AnimEndsOnPillColor | src/homewind_ui.c:292-354 | the toggle animation runs exactly for on/off pills and ends on the colour `update_fan_item` paints |
| Mirror.UpdateIcons | src/powersave.c:495-590 | `update_powersave_icons` records the summary, draws only with the screen up and in soft powersave or on first use, redraws HR and CSC only on change, and always redraws the fan slot |
| Mirror.RenderKeepsFaithful | src/powersave.c:495-590 | after a drawing call the three labels read the new summary |
| Mirror.StaleLabelAfterReentry | src/powersave.c:495-590 | a summary recorded silently outside soft powersave hides a later change: on re-entry the HR label keeps the old value |
| Ui.CountConfigured | src/homewind_ui.c:459-468 | the configured count never exceeds the number of fans |
| Ui.CountConfiguredIsCardinality | src/homewind_ui.c:459-468 | `count_configured_fans` is the number of fan indices whose state is not "not configured" |
| Ui.CountOn | src/homewind_ui.c:471-480 | the count of fans on never exceeds the configured count |
| Ui.CountOnIsCardinality | src/homewind_ui.c:471-480 | `count_fans_on` is the number of fan indices that are configured and switched on |
| Ui.CountsMeaning | src/homewind_ui.c:459-480 | a count is 0 exactly when no fan qualifies, and the configured count is full exactly when every fan is configured |
| Ui.SummaryOf | src/homewind_ui.c:483-489 | the summary handed to the mirror carries the store's sensor values and counts with on ≤ total ≤ 4 |
| Ui.UpdatePowersaveDisplay | src/homewind_ui.c:483-489 | afterwards the mirror holds the current summary, and only powersave renders are emitted |
| Ui.Gate | src/homewind_ui.c:517-533 | the gate skips exactly off the main screen or under the modal; off the main screen it mirrors only in soft powersave, and under the modal it records a pending refresh |
| Ui.UpdateHr | src/homewind_ui.c:535-621 | the HR card is skipped by the gate, left alone when its cache matches the store, and otherwise drawn from the store with the cache made fresh |
| Ui.DrawCsc | src/homewind_ui.c:687-756 | past the gate the CSC card is restyled only when its state changed since the last styling, then drawn |
| Ui.UpdateCsc | src/homewind_ui.c:687-756 | the CSC card has no dirty cache: past the gate it is always drawn, and the style cache then holds the stored state |
| Ui.UpdateFan | src/homewind_ui.c:811-879 | a fan pill is skipped by the gate, left alone when its cache matches, and otherwise drawn with its cache made fresh, other fans untouched |
| Ui.FansRendered | src/homewind_ui.c:1110-1132 | the loop over the fans draws every stale fan from the store and leaves every cache fresh |
| Ui.Invalidate | src/homewind_ui.c:1114-1121 | the full refresh marks the HR card and every fan stale, keeping the store, the screens and the number caches |
| Ui.RenderAll | src/homewind_ui.c:1123-1131 | drawing every widget keeps the store and the power state; under the modal it draws nothing and owes a refresh, and off the main screen outside soft powersave it does nothing |
| Ui.RefreshMainDisplay | src/homewind_ui.c:1110-1132 | under the modal the full refresh draws nothing and owes a refresh |
| Ui.RenderAllDraws | src/homewind_ui.c:1110-1132 | on a cold main screen the widgets are drawn HR first, then CSC, then every fan |
| Ui.RenderAllFresh | src/homewind_ui.c:1110-1132 | and every cache is then fresh, with the screens unchanged |
| Ui.RefreshRendersEverything | src/homewind_ui.c:1110-1132 | with the main screen up and the modal closed, a refresh draws every widget from the store, HR first |
| Ui.OpenOverlay | src/homewind_ui.c:182-197 | opening the modal sets its flag and drops any owed refresh |
| Ui.OverlayClosed | src/homewind_ui.c:199-224 | closing the modal clears its flags, and an owed refresh redraws every widget from the store |
| Ui.HideSettingsOverlay | src/homewind_ui.c:1249-1254 | hiding the overlay leaves the modal flag as it was |
| Ui.CreateScreens | src/homewind_ui.c:1079-1088 | building the screens resets every fan to not configured and ends on the boot screen; the HR number cache then holds the stored HR value, and holds its exact text whenever the seed was replaced |
| Ui.CreateScreensAtBoot | src/homewind_ui.c:1079-1088 | on a fresh device the gate skips every widget while the screens are built, so only the boot screen load is logged; the only cache that changes is the HR number cache, which now holds 0 and "--" |
| Ui.BootHrCacheIsExact | src/homewind_ui.c:425 | after the screens are built at boot, every HR value, 0xFFFF included, is shown as its own text, never as the seed's "--" |
| Ui.ShowMainScreen | src/homewind_ui.c:1097-1103 | showing the main screen loads it first and, with the modal closed, redraws every widget |
| Ui.ShowApScreen | src/homewind_ui.c:1090-1095 | only the AP screen is loaded |
| Setters.NewName | src/homewind_ui.c:1142-1146 | a NULL name keeps the stored name; a given name is stored truncated to the buffer's 31 bytes |
| Setters.SetHr | src/homewind_ui.c:1138-1149 | an unchanged call does nothing; a change updates the store and redraws the HR card from it, or owes a refresh under the modal |
| Setters.HrSettersAgree | src/homewind_ui.c:1151-1165 | the state and value setters are the full setter with a NULL name |
| Setters.SetHrIdempotent | src/homewind_ui.c:1138-1149 | repeating a call with a name that fits changes nothing and draws nothing |
| Setters.SetHrState | src/homewind_ui.c:1151-1157 | only the HR state changes in the store, and the same state does nothing |
| Setters.SetHrValue | src/homewind_ui.c:1159-1165 | only the HR value changes in the store, and the same value does nothing |
| Setters.HrRedrawn | src/homewind_ui.c:535-621 | past the gate a stale HR card is drawn first, from the store |
| Setters.LongHrNameAlwaysDiffers | src/homewind_ui.c:1142-1146 | a name longer than 31 bytes never equals the stored truncation, so every call with it passes the change guard |
| Setters.SettersKeepNamesFit | src/homewind_ui.c:1143-1144 | given a byte string, the HR and CSC setters keep both stored names byte strings within the buffer's 31 bytes |
| Setters.SetCsc | src/homewind_ui.c:1171-1182 | an unchanged call does nothing; a change updates the store and always redraws the CSC card, or owes a refresh under the modal |
| Setters.CscSettersAgree | src/homewind_ui.c:1184-1198 | the state and cadence setters are the full setter with a NULL name |
| Setters.SetCscState | src/homewind_ui.c:1184-1190 | only the CSC state changes in the store, and the same state does nothing |
| Setters.SetCscCadence | src/homewind_ui.c:1192-1198 | only the cadence changes in the store, and the same cadence does nothing |
| Setters.CscRedrawn | src/homewind_ui.c:687-756 | past the gate the CSC card is drawn from the store |
| Setters.FanTail | src/homewind_ui.c:1204-1212 | after a fan setter the mirror holds the store's summary |
| Setters.FanTailDraws | src/homewind_ui.c:1204-1212 | on the main screen the fan's cache is fresh afterwards and a stale fan is drawn; under the modal nothing is drawn and a refresh is owed |
| Setters.SetFan | src/homewind_ui.c:1204-1212 | an unchanged fan or a bad index does nothing; a change stores the fan, mirrors the summary and redraws the pill |
| Setters.SetFanState | src/homewind_ui.c:1214-1224 | a state change to not configured or inactive clears the on-flag; other fans are untouched |
| Setters.SetFanStateIsSetFan | src/homewind_ui.c:1204-1224 | the state setter is the general setter with the on-flag it leaves |
| Setters.SetFanKeepsOnFlag | src/homewind_ui.c:1204-1224 | the general setter can store an inactive fan as on, while the state setter clears it; both draw the same pill |
| Setters.AnimateFanToggle | src/homewind_ui.c:292-354 | the fan's animation is stopped first, and a new one starts towards the pill's colour exactly for on/off pills |
| Setters.SetFanToggle | src/homewind_ui.c:1226-1234 | an unchanged flag does nothing; a change stores the flag, mirrors the summary and stops the pill's animation |
| Setters.SetFanToggleIsSetFan | src/homewind_ui.c:1204-1234 | the toggle setter ends in the same state as the general setter with the state kept |
| Setters.SetFanToggleCallback | src/homewind_ui.c:1236-1239 | only the callback registration changes |
| Power.StopBreathing | src/powersave.c:270-274 | only the breathing flag is cleared |
| Power.StartBreathing | src/powersave.c:246-268 | without the powersave screen nothing happens; otherwise the old animation is stopped, the soft minimum is written only if not already written, and breathing starts |
| Power.AnimFrame | src/powersave.c:230-244 | a breathing frame keeps the level in 80..120 and writes the backlight exactly when the level changes |
| Power.CreatePsScreen | src/powersave.c:277-314 | the new labels read "--" while the mirror and its caches, file statics, survive |
| Power.SetStateDimmed | src/powersave.c:414-426 | DIMMED ends with the dimmed backlight; leaving soft powersave first loads the main screen and stops breathing |
| Power.SetStateSoftPowersave | src/powersave.c:428-446 | soft powersave loads its screen, mirrors the current summary and starts breathing |
| Power.SoftEntryLog | src/powersave.c:428-446 | entry writes the soft minimum before loading the screen, ends by starting the breathing, writes no other level and draws nothing on the main screen |
| Power.Tick | src/powersave.c:369-404 | the inactivity timer: touch resets the timer and wakes from DIMMED; locked resets the timer; from ACTIVE it dims (one write of the dimmed level) exactly when more than 8 s have passed and the main screen exists, otherwise it does nothing; it schedules the deferred transition exactly when DIMMED, unscheduled and past 20 s |
| Power.FireDeferred | src/powersave.c:340-347 | the deferred callback clears the guard and enters soft powersave unless locked, whatever the state |
| Power.LeaveSoft | src/powersave.c:460-467 | leaving soft powersave loads the main screen, stops breathing and hides the overlay, in that order |
| Power.OnUserActivity | src/powersave.c:454-481 | activity always ends ACTIVE with the timer reset; from DIMMED it only restores full brightness |
| Power.WakeFromSoft | src/powersave.c:454-481 | waking from soft powersave loads the main screen, stops breathing and hides the overlay before full brightness; the refresh after it writes no backlight and, since the state is already ACTIVE and the modal is closed, draws the HR card, the CSC card and every fan from the store and leaves every cache fresh |
| Power.RefreshHasNoBacklight | src/homewind_ui.c:1110-1132 | a main-screen refresh never touches the backlight |
| Power.HrHasNoBacklight | src/homewind_ui.c:535-621 | drawing the HR card never touches the backlight |
| Power.CscHasNoBacklight | src/homewind_ui.c:687-756 | drawing the CSC card never touches the backlight |
| Power.FansHaveNoBacklight | src/homewind_ui.c:1123-1126 | the fan loop never touches the backlight |
| Power.MainScreenTouch | src/powersave.c:326-334 | a touch on the main screen resets the timer and wakes only from DIMMED |
| Power.MainScreenTouchIsPointerTick | src/powersave.c:326-334 | the touch callback does what the timer's touch branch does; neither leaves soft powersave |
| Power.Lock | src/powersave.c:350-361 | locking forces ACTIVE at full brightness and stops breathing, without changing the screen shown |
| Power.Unlock | src/powersave.c:363-366 | only the lock is released |
| Power.SetStateActive | src/powersave.c:407-412 | only the state and the activity time change |
| Power.RestartIfBreathing | src/powersave.c:615-633 | a curve change restarts the breathing only in soft powersave |
| Power.SetInhaleCurve | src/powersave.c:615-623 | the inhale curve is set and the breathing restarted only in soft powersave |
| Power.SetExhaleCurve | src/powersave.c:625-633 | the exhale curve is set and the breathing restarted only in soft powersave |
| Power.PowersaveInit | src/powersave.c:593-612 | with the main screen built, the powersave screen is built, the timer reset and full brightness written |
| Power.TicksScheduleOnce | src/powersave.c:393-402 | however often the timer fires, at most one deferred transition is scheduled, and none while one is pending |
| Power.LockedTicksAreQuiet | src/powersave.c:374-388 | while locked and active, the timer only moves the activity time |
| Power.DeferralSurvivesActivity | src/powersave.c:340-347 | activity between scheduling and firing does not cancel the deferred transition |
| Power.WakeWithModalOpen | src/powersave.c:454-481 | waking with the modal open hides the overlay but keeps the modal flag, so the refresh draws nothing and the gate keeps skipping |
| Power.InactivityCycle | src/powersave.c:369-481 | dim after 8 s, schedule after 20 s, enter soft powersave when the callback runs, and wake to the main screen at full brightness |
| Input.Tapped | src/homewind_ui.c:371-394 | a tap toggles only an active fan; an errored fan reports "off" to the callback; other fans do nothing |
| Input.Toggled | src/homewind_ui.c:380-391 | the tap on an active fan flips its stored on-flag and nothing else |
| Input.ToggledLog | src/homewind_ui.c:380-391 | the callback is told first, exactly when registered, and the pill's animation is stopped |
| Input.FanTap | src/homewind_ui.c:371-394 | the handler first counts as user activity, then handles the tap |
| Input.TapIsToggle | src/homewind_ui.c:371-394 | a tap stores what the toggle setter stores |
| Input.TapTwiceRestores | src/homewind_ui.c:371-394 | two taps on an active fan give back the stored flag |
| Input.SettingsButton | src/homewind_ui.c:357-362 | the settings button counts as activity and slides the modal in |
| Input.ModalDefersUpdate | src/homewind_ui.c:517-533 | a sensor change under the modal draws nothing, and closing the modal draws the HR card from the new value |
| Touch.DecodeCoord | src/FT3168.cpp:70-71 | a coordinate is the low nibble of the high register above the low register |
| Touch.CoordRoundTrip | src/FT3168.cpp:70-71 | decoding inverts the controller's encoding, whatever the flag nibble |
| Touch.GetTouch | src/FT3168.cpp:62-79 | no touch leaves the outputs alone; a touch reports coordinates clamped to the panel |
| Touch.TouchInsidePanel | src/FT3168.cpp:62-79 | a point inside the panel comes back exactly |
| Touch.WriteFrame | src/FT3168.cpp:12-33 | a register write sends the register then at most 32 payload bytes, copied only from a non-NULL buffer |
| Touch.NormalModeFrame | src/FT3168.cpp:43-61 | the init write to register 0 is the two-byte frame 0x00 0x00 |
| Lcd.Round | src/lcd_bsp.c:205-219 | the rounder moves start corners down to even and end corners up to odd, by at most one |
| Lcd.RoundProperties | src/lcd_bsp.c:205-219 | a rounded area spans an even number of rows and columns, and rounding again changes nothing |
| Lcd.RoundIsTightest | src/lcd_bsp.c:205-219 | the rounded area is the smallest aligned cover |
| Lcd.TaskDelay | src/lcd_bsp.c:163-184 | the render task sleeps within 5..200 ms, exactly as asked inside the band |
| Lcd.TouchRead | src/lcd_bsp.c:224-257 | the callback polls the controller only when the counter reaches 2, otherwise reports the cached point; a polled press reports the controller's decoded point (`getTouch`, modelled by `Touch.GetTouch`), clamped to the panel, as pressed; a polled release keeps the last point and reports released |
| Lcd.PollEveryThird | src/lcd_bsp.c:224-257 | call i polls exactly when i + counter + 1 is a multiple of three |
| Rotation.Target | src/lcd_bsp.c:316-328 | a reading argues for 180° only below the left threshold minus 0.3, and back to 0° only above the right threshold plus 0.3 |
| Rotation.Step | src/lcd_bsp.c:297-350 | without a display nothing changes; an agreeing reading resets the counter |
| Rotation.StepDebounce | src/lcd_bsp.c:316-346 | a disagreeing reading commits exactly when the previous one disagreed too, and the counter stays at most one |
| Rotation.CommitWithoutLock | src/lcd_bsp.c:330-337 | a second disagreeing reading advances the task's rotation even when `lcd_set_rotation` cannot take the lock, so the panel keeps its old rotation and the two disagree |
| Rotation.SetThresholds | src/lcd_bsp.c:353-356 | both thresholds are stored as given |
| Rotation.GetThresholds | src/lcd_bsp.c:359-362 | each threshold is reported exactly through a non-NULL pointer |
| Rotation.NoCommitWithoutTwoInARow | src/lcd_bsp.c:316-346 | readings that never disagree twice in a row never rotate the display |
| Rotation.TwoReadingsRotate | src/lcd_bsp.c:316-346 | two successive disagreeing readings rotate on the second |
| Rotation.ThresholdsRoundTrip | src/lcd_bsp.c:353-362 | getting the thresholds returns the pair that was set |

## Left out

- Character encoding: a sensor name is its C byte string, one Dafny character per byte (`Text.Bytes`); nothing decodes UTF-8, just as `strncpy` and `strcmp` in the firmware cut and compare bytes.
- LVGL itself: widget creation, layout, fonts, styles, the QR code image (`homewind_set_qr_code_url`) and the inside of the `create_*` helpers. A render is logged as the view it shows, not as the widget calls that draw it.
- The LVGL animation and timer engines. An animation is logged as started or stopped, and its callback is modelled as a function of the value it is given (`Breathing.AnimCallback`, `Color.Interpolate`). The slide-in and slide-out of the settings modal are their start (`Ui.OpenOverlay`) and their ready callback (`Ui.OverlayClosed`).
- `homewind_init`, `lcd_lvgl_Init`, the FreeRTOS tasks, the LVGL mutex and `lcd_start_imu_rotation_task`. The tasks are single steps driven by their inputs (`Lcd.TaskDelay`, `Lcd.TouchRead`, `Rotation.Step`). The mutex is modelled only where failing to obtain it changes the outcome (`Rotation.CommitWithoutLock`).
- Hardware I/O: `set_amoled_backlight`, the I2C transfers, `I2C_read_buff` and the accelerometer read. The backlight write is a logged event. A read is a parameter holding the bytes or the value the device returned. The panel rotation itself (`lcd_set_rotation`) is the committed orientation.
- `overlay_touch_event_cb` is `Power.OnUserActivity` with the current tick, and has no member of its own.
- `get_ui_power_state` reads a field of the model and has no member of its own. `homewind_refresh_powersave_display` only calls `update_powersave_display` (`Ui.UpdatePowersaveDisplay`).
- `close_btn_event_cb` only starts the slide-out, whose ready callback is `Ui.OverlayClosed`.
- The touch register decode is stated arithmetically (`* 256 +`, `% 16`) rather than with shifts and masks; the two agree on bytes.
- The start-colour extraction depends on `LV_COLOR_DEPTH`. The panel runs at 16 bits per pixel (`LCD_BIT_PER_PIXEL` in `src/lcd_config.h`), so the RGB565 branch is the one in use; it widens each channel with zero low bits. The model takes the start colour as three 8-bit channels, which includes every widened RGB565 colour, and does not model the RGB565 quantisation of the start colour or of the colour `lv_color_make` builds.
- Rotation.Target: the accelerometer's float reading and the thresholds are reals, so float rounding at the hysteresis boundaries is not modelled.
- Breathing.BreathEndsAtMinimum: stated only for a breath whose `time * 1024` fits in 32 bits. `Breathing.NormTime` models the wrap of that product, and a wrapped product may end the breath above the minimum.
