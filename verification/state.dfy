/** The state the HomeWind display firmware keeps across events, as one
    immutable record, and the observable effects of an event, as a log.

    `powersave.c` and `homewind_ui.c` keep this state in file-level
    statics; here every event handler is a pure function from a `System`
    to an `Out`, the new system plus the effects it produced in order:
    backlight writes, screen loads, widget renders and callbacks. LVGL
    itself (objects, styles, layout, animations) is not modelled: a widget
    render is one event carrying what the widget shows afterwards. */
module State {
  import opened Ints
  import opened Wrappers
  import Breathing

  /** `ui_power_state_t` (src/powersave.h). */
  datatype PowerState = Active | Dimmed | SoftPowersave

  /** `hr_state_t`, `csc_state_t`, `fan_state_t` (src/homewind_ui.h). */
  datatype HrState = HrNotConfigured | HrInactive | HrActive
  datatype CscState = CscNotConfigured | CscInactive | CscActive
  datatype FanState = FanNotConfigured | FanInactive | FanError | FanActive

  /** The screens LVGL can show. `Default` is LVGL's own screen, active
      until the firmware loads one of its own. */
  datatype Screen = Default | Boot | Ap | Main | Powersave

  const MAX_FANS: int := 4

  /** Backlight levels and inactivity timeouts (src/powersave.c). */
  const BRIGHTNESS_FULL: u8 := 255
  const BRIGHTNESS_DIMMED: u8 := 120
  const DIM_TIMEOUT_MS: int := 8000
  const SOFT_TIMEOUT_MS: int := 20000

  /** The sensor store: what the application last told the UI. */
  datatype Hr = Hr(state: HrState, name: string, value: u16)
  datatype Csc = Csc(state: CscState, name: string, cadence: u16)
  datatype Fan = Fan(state: FanState, isOn: bool)

  type Fans = f: seq<Fan> | |f| == MAX_FANS
    witness [Fan(FanNotConfigured, false), Fan(FanNotConfigured, false),
             Fan(FanNotConfigured, false), Fan(FanNotConfigured, false)]

  datatype Store = Store(hr: Hr, csc: Csc, fans: Fans)

  const NO_FAN: Fan := Fan(FanNotConfigured, false)
  const NO_FANS: Fans := [NO_FAN, NO_FAN, NO_FAN, NO_FAN]

  /** Initial store: HR unnamed, CSC named "CSC Sensor", no fans. */
  const INITIAL_STORE: Store :=
    Store(Hr(HrNotConfigured, "", 0), Csc(CscNotConfigured, "CSC Sensor", 0), NO_FANS)

  /** A number formatted once per distinct value: the value `key` whose
      text is `text`. The firmware seeds these with a sentinel key whose
      text is not the key's decimal form. */
  datatype NumText = NumText(key: u16, text: string)

  /** The HR widget's dirty cache (`hr_widget_cache_*`). */
  datatype HrCache = HrCache(initialized: bool, state: HrState, value: u16, name: string)

  /** One fan's dirty cache (`fan_ui_cache[i]`). */
  datatype FanCache = FanCache(initialized: bool, state: FanState, isOn: bool)

  type FanCaches = f: seq<FanCache> | |f| == MAX_FANS
    witness [FanCache(false, FanNotConfigured, false), FanCache(false, FanNotConfigured, false),
             FanCache(false, FanNotConfigured, false), FanCache(false, FanNotConfigured, false)]

  const COLD_FAN_CACHE: FanCache := FanCache(false, FanNotConfigured, false)
  const COLD_FAN_CACHES: FanCaches := [COLD_FAN_CACHE, COLD_FAN_CACHE, COLD_FAN_CACHE, COLD_FAN_CACHE]

  /** The main screen's render caches: HR and fan dirty caches, the CSC
      card's last applied style state (`prev_state`, `None` before the
      first render) and the two formatted-number caches
      (`hr_value_str` seeded 0xFFFF/"--", `csc_cadence_str` seeded 0/"0 RPM"). */
  datatype Caches = Caches(hr: HrCache, cscStyle: Option<CscState>, fans: FanCaches,
                           hrText: NumText, cscText: NumText)

  const INITIAL_CACHES: Caches :=
    Caches(HrCache(false, HrNotConfigured, 0xFFFF, ""), None, COLD_FAN_CACHES,
           NumText(0xFFFF, "--"), NumText(0, "0 RPM"))

  /** The arguments of `update_powersave_icons`: the sensor summary the
      powersave screen shows. */
  datatype Summary = Summary(hrState: HrState, cscState: CscState, hrValue: u16, cscValue: u16,
                             fanActive: u8, fanTotal: u8)

  /** The powersave screen and its mirror of the summary. `created` is
      "`scr_powersave` exists"; the three labels are what the screen
      shows; `mirror`/`mirrored` are `powersave_cache` and its
      `initialized` flag; the two number caches are `powersave_hr_str` and
      `powersave_csc_str`, both seeded 0xFFFF/"--". */
  datatype PsScreen = PsScreen(created: bool, mirrored: bool, mirror: Summary,
                               hrText: NumText, cscText: NumText,
                               hrLabel: string, cscLabel: string, fanLabel: string)

  const ZERO_SUMMARY: Summary := Summary(HrNotConfigured, CscNotConfigured, 0, 0, 0, 0)

  const INITIAL_PS: PsScreen :=
    PsScreen(false, false, ZERO_SUMMARY, NumText(0xFFFF, "--"), NumText(0xFFFF, "--"), "--", "--", "--")

  /** Which screen LVGL shows, whether `homewind_create_screens` has built
      the boot, AP and main screens (main with its widgets and the
      settings overlay), the overlay's hidden flag, and the two modal
      flags `settings_modal_visible` and `ui_refresh_pending`. */
  datatype Screens = Screens(active: Screen, created: bool, overlayHidden: bool,
                             modalVisible: bool, refreshPending: bool)

  /** The power module's statics, the breathing animation's running flag
      and curves, and `brightness_anim_cb`'s `last_brightness`. */
  datatype Power = Power(state: PowerState, lastActivity: u32, locked: bool, pending: bool,
                         breathing: bool, inhale: Breathing.Ease, exhale: Breathing.Ease,
                         animLast: u8)

  const INITIAL_POWER: Power :=
    Power(Active, 0, true, false, false, Breathing.QuadraticIn, Breathing.QuadraticOut,
          Breathing.ANIM_INITIAL_LAST)

  /** Everything together, plus whether a fan toggle callback is registered. */
  datatype System = System(power: Power, screens: Screens, store: Store, caches: Caches,
                           ps: PsScreen, callback: bool)

  const INITIAL: System :=
    System(INITIAL_POWER, Screens(Default, false, true, false, false), INITIAL_STORE,
           INITIAL_CACHES, INITIAL_PS, false)

  /** What the HR card shows: the value and the caption under it, or only a
      caption with the disconnected icon. */
  datatype HrView = HrReading(value: string, caption: string) | HrDisconnected(caption: string)

  /** What the CSC card shows: checkmark or error icon, name, status line. */
  datatype CscView = CscView(connected: bool, name: string, status: string)

  /** A fan pill's look (src/homewind_ui.c:831-875). */
  datatype FanView = PillUnconfigured | PillOn | PillOff | PillError

  /** Observable effects. */
  datatype Event =
    | Backlight(level: u8)
    | LoadScreen(screen: Screen)
    | BreathingStarted
    | BreathingStopped
    | OverlayShown
    | OverlayHidden
    | DeferredScheduled
    | HrRendered(hr: HrView)
    | CscStyled(activeStyle: bool)
    | CscRendered(csc: CscView)
    | FanRendered(index: nat, fan: FanView)
    | FanAnimStopped(index: nat)
    | FanAnimStarted(index: nat, endColor: int)
    | FanCallback(index: nat, on: bool)
    | PsHrRendered(connected: bool, text: string)
    | PsCscRendered(connected: bool, text: string)
    | PsFanRendered(lit: bool, text: string)
  {
    /** A render of a main-screen widget. */
    predicate MainRender() {
      HrRendered? || CscStyled? || CscRendered? || FanRendered?
    }

    /** A render on the powersave screen. */
    predicate PsRender() {
      PsHrRendered? || PsCscRendered? || PsFanRendered?
    }
  }

  /** The result of an event: the new state and the effects, in order. */
  datatype Out = Out(s: System, log: seq<Event>)

  predicate NoMainRender(log: seq<Event>)
  {
    forall i :: 0 <= i < |log| ==> !log[i].MainRender()
  }

  predicate NoBacklight(log: seq<Event>)
  {
    forall i :: 0 <= i < |log| ==> !log[i].Backlight?
  }

  /** Whether the main screen is the one LVGL shows (`lv_scr_act() == scr_main`,
      which needs `scr_main` to exist). */
  predicate MainShown(s: System)
  {
    s.screens.created && s.screens.active == Main
  }
}
