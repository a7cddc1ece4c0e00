/** The display power state machine of src/powersave.c: ACTIVE → DIMMED
    after 8 s without activity, DIMMED → SOFT_POWERSAVE after 20 s through
    a deferred one-shot timer, and back to ACTIVE on user activity; plus
    the lock used while the boot and AP screens are up, and the breathing
    backlight animation of the soft powersave screen. */
module Power {
  import opened Ints
  import opened Wrappers
  import opened State
  import Breathing
  import Ui
  import Labels

  const SOFT_MIN: u8 := 80

  /** `stop_breathing_animation`: delete the brightness animation. */
  function StopBreathing(s: System): (r: Out)
    ensures !r.s.power.breathing && r.log == [BreathingStopped]
    ensures r.s.(power := s.power) == s && r.s.power.(breathing := s.power.breathing) == s.power
  {
    Out(s.(power := s.power.(breathing := false)), [BreathingStopped])
  }

  /** `start_breathing_animation`: nothing without the powersave screen;
      otherwise stop any running animation, put the backlight at the soft
      minimum through the de-duplicating callback, and start animating. */
  function StartBreathing(s: System): (r: Out)
    ensures !s.ps.created ==> r == Out(s, [])
    ensures s.ps.created ==>
      && r.s == s.(power := s.power.(breathing := true, animLast := SOFT_MIN))
      && |r.log| >= 2 && r.log[0] == BreathingStopped && r.log[|r.log| - 1] == BreathingStarted
      && (Backlight(SOFT_MIN) in r.log <==> s.power.animLast != SOFT_MIN)
      && (forall i :: 0 <= i < |r.log| && r.log[i].Backlight? ==> r.log[i].level == SOFT_MIN)
      && NoMainRender(r.log)
  {
    if !s.ps.created then Out(s, [])
    else
      var w := Breathing.AnimCallback(s.power.animLast, Breathing.BRIGHTNESS_SOFT_MIN);
      var write := if w.write.Some? then [Backlight(w.write.value)] else [];
      Out(s.(power := s.power.(breathing := true, animLast := w.last)),
          [BreathingStopped] + write + [BreathingStarted])
  }

  /** One frame of the breathing animation at elapsed time `actTime`:
      the path's brightness goes through the de-duplicating callback. */
  function AnimFrame(s: System, actTime: u32): (r: Out)
    ensures r.s == s.(power := r.s.power)
    ensures r.s.power == s.power.(animLast := r.s.power.animLast)
    ensures !s.power.breathing ==> r == Out(s, [])
    ensures s.power.breathing ==>
      && Breathing.BRIGHTNESS_SOFT_MIN <= r.s.power.animLast <= Breathing.BRIGHTNESS_SOFT_MAX
      && (r.log == [] <==> r.s.power.animLast == s.power.animLast)
      && (r.log != [] ==> r.log == [Backlight(r.s.power.animLast)])
  {
    if !s.power.breathing then Out(s, [])
    else
      var b := Breathing.BreathingPath(actTime, Breathing.BREATHING_ANIM_TIME as u32, s.power.inhale, s.power.exhale);
      var w := Breathing.AnimCallback(s.power.animLast, b);
      Out(s.(power := s.power.(animLast := w.last)), if w.write.Some? then [Backlight(w.write.value)] else [])
  }

  /** `create_powersave_screen`: fresh labels reading "--". The mirror and
      its number caches are file statics and survive a re-creation. */
  function CreatePsScreen(ps: PsScreen): (r: PsScreen)
    ensures r.created && r.hrLabel == "--" && r.cscLabel == "--" && r.fanLabel == "--"
    ensures r.mirrored == ps.mirrored && r.mirror == ps.mirror
    ensures r.hrText == ps.hrText && r.cscText == ps.cscText
  {
    ps.(created := true, hrLabel := "--", cscLabel := "--", fanLabel := "--")
  }

  /** `set_state_dimmed`: needs the main screen; leaving soft powersave
      loads it and stops the breathing. */
  function SetStateDimmed(s: System): (r: Out)
    ensures !s.screens.created ==> r == Out(s, [])
    ensures s.screens.created ==>
      && r.s.power.state == Dimmed
      && |r.log| > 0 && r.log[|r.log| - 1] == Backlight(BRIGHTNESS_DIMMED)
      && r.s.store == s.store && r.s.caches == s.caches && r.s.ps == s.ps
      && r.s.power.lastActivity == s.power.lastActivity && r.s.power.pending == s.power.pending
      && r.s.power.locked == s.power.locked
    ensures s.screens.created && s.power.state != SoftPowersave ==>
      r == Out(s.(power := s.power.(state := Dimmed)), [Backlight(BRIGHTNESS_DIMMED)])
    ensures s.screens.created && s.power.state == SoftPowersave ==>
      && r.log == [LoadScreen(Main), BreathingStopped, Backlight(BRIGHTNESS_DIMMED)]
      && MainShown(r.s) && !r.s.power.breathing
  {
    if !s.screens.created then Out(s, [])
    else
      var a := if s.power.state == SoftPowersave then
          var st := StopBreathing(s.(screens := s.screens.(active := Main)));
          Out(st.s, [LoadScreen(Main)] + st.log)
        else Out(s, []);
      Out(a.s.(power := a.s.power.(state := Dimmed)), a.log + [Backlight(BRIGHTNESS_DIMMED)])
  }

  /** `set_state_soft_powersave`: create the powersave screen if needed,
      enter the state, set the soft minimum, load the screen, refresh its
      labels from the store and start breathing. */
  function SetStateSoftPowersave(s: System): (r: Out)
    ensures r.s.power == s.power.(state := SoftPowersave, breathing := true, animLast := SOFT_MIN)
    ensures r.s.screens == s.screens.(active := Powersave)
    ensures r.s.store == s.store && r.s.caches == s.caches && r.s.callback == s.callback
    ensures r.s.ps.created && r.s.ps.mirrored && r.s.ps.mirror == Ui.SummaryOf(s)
  {
    var ps := if !s.ps.created then CreatePsScreen(s.ps) else s.ps;
    var s1 := s.(ps := ps, power := s.power.(state := SoftPowersave),
                 screens := s.screens.(active := Powersave));
    var u := Ui.UpdatePowersaveDisplay(s1);
    assert Ui.SummaryOf(s1) == Ui.SummaryOf(s);
    var b := StartBreathing(u.s);
    Out(b.s, [Backlight(SOFT_MIN), LoadScreen(Powersave)] + u.log + b.log)
  }

  /** Entering soft powersave sets the soft minimum before loading the
      screen, draws only on the powersave screen, ends by starting the
      breathing, and never writes any other backlight level. */
  lemma SoftEntryLog(s: System)
    ensures var r := SetStateSoftPowersave(s);
      && |r.log| >= 4 && r.log[0] == Backlight(SOFT_MIN) && r.log[1] == LoadScreen(Powersave)
      && r.log[|r.log| - 1] == BreathingStarted
      && (forall i :: 0 <= i < |r.log| && r.log[i].Backlight? ==> r.log[i].level == SOFT_MIN)
      && NoMainRender(r.log)
  {
    var ps := if !s.ps.created then CreatePsScreen(s.ps) else s.ps;
    var s1 := s.(ps := ps, power := s.power.(state := SoftPowersave),
                 screens := s.screens.(active := Powersave));
    var u := Ui.UpdatePowersaveDisplay(s1);
    var b := StartBreathing(u.s);
    SoftLogShape(u.log, b.log);
  }

  /** The shape of the soft entry log from its parts: the powersave
      redraw's events and the breathing start's. */
  lemma SoftLogShape(u: seq<Event>, b: seq<Event>)
    requires forall i :: 0 <= i < |u| ==> u[i].PsRender()
    requires |b| >= 2 && b[|b| - 1] == BreathingStarted && NoMainRender(b)
    requires forall i :: 0 <= i < |b| && b[i].Backlight? ==> b[i].level == SOFT_MIN
    ensures var log := [Backlight(SOFT_MIN), LoadScreen(Powersave)] + u + b;
      && |log| >= 4 && log[0] == Backlight(SOFT_MIN) && log[1] == LoadScreen(Powersave)
      && log[|log| - 1] == BreathingStarted
      && (forall i :: 0 <= i < |log| && log[i].Backlight? ==> log[i].level == SOFT_MIN)
      && NoMainRender(log)
  {
    var log := [Backlight(SOFT_MIN), LoadScreen(Powersave)] + u + b;
    forall i | 0 <= i < |log|
      ensures log[i].Backlight? ==> log[i].level == SOFT_MIN
      ensures !log[i].MainRender()
    {
      if 2 <= i < 2 + |u| {
        assert log[i] == u[i - 2];
      } else if 2 + |u| <= i {
        assert log[i] == b[i - 2 - |u|];
      }
    }
  }

  /** The inactivity timer callback, run every 500 ms at tick `now`;
      `pointer` says the active input device is the touch panel. */
  function Tick(s: System, now: u32, pointer: bool): (r: Out)
    ensures pointer ==> r.s.power.lastActivity == now
    ensures pointer && s.power.state == Dimmed ==>
      r == Out(s.(power := s.power.(state := Active, lastActivity := now)), [Backlight(BRIGHTNESS_FULL)])
    ensures pointer && s.power.state != Dimmed ==> r == Out(s.(power := s.power.(lastActivity := now)), [])
    ensures !pointer && s.power.locked ==> r == Out(s.(power := s.power.(lastActivity := now)), [])
    ensures !pointer && !s.power.locked ==> r.s.power.lastActivity == s.power.lastActivity
    ensures r.s.power.locked == s.power.locked && r.s.store == s.store && r.s.caches == s.caches
    ensures r.s.power.pending <==> s.power.pending || DeferredScheduled in r.log
    ensures DeferredScheduled in r.log <==>
      !pointer && !s.power.locked && s.power.state == Dimmed && !s.power.pending
      && Sub32(now, s.power.lastActivity) > SOFT_TIMEOUT_MS
    ensures DeferredScheduled in r.log ==> r.log == [DeferredScheduled]
    ensures r.s.power.state == SoftPowersave <==> s.power.state == SoftPowersave
    ensures r.s.power.state == Dimmed && s.power.state == Active ==>
      !pointer && !s.power.locked && Sub32(now, s.power.lastActivity) > DIM_TIMEOUT_MS
    ensures !pointer && !s.power.locked && s.power.state == Active ==>
      if Sub32(now, s.power.lastActivity) > DIM_TIMEOUT_MS && s.screens.created
      then r == Out(s.(power := s.power.(state := Dimmed)), [Backlight(BRIGHTNESS_DIMMED)])
      else r == Out(s, [])
  {
    if pointer then
      var p := s.power.(lastActivity := now);
      if s.power.state == Dimmed then Out(s.(power := p.(state := Active)), [Backlight(BRIGHTNESS_FULL)])
      else Out(s.(power := p), [])
    else if s.power.locked then Out(s.(power := s.power.(lastActivity := now)), [])
    else
      var diff := Sub32(now, s.power.lastActivity);
      if s.power.state == Active && diff > DIM_TIMEOUT_MS then SetStateDimmed(s)
      else if s.power.state == Dimmed && diff > SOFT_TIMEOUT_MS && !s.power.pending then
        Out(s.(power := s.power.(pending := true)), [DeferredScheduled])
      else Out(s, [])
  }

  /** `deferred_soft_powersave_cb`: clear the guard and, unless locked,
      enter soft powersave, whatever state the device is in by now. */
  function FireDeferred(s: System): (r: Out)
    ensures !r.s.power.pending
    ensures s.power.locked ==> r == Out(s.(power := s.power.(pending := false)), [])
    ensures !s.power.locked ==> r.s.power.state == SoftPowersave && r.s.screens.active == Powersave
  {
    var s1 := s.(power := s.power.(pending := false));
    if s.power.locked then Out(s1, []) else SetStateSoftPowersave(s1)
  }

  /** Leaving soft powersave with the main screen built: load it, stop
      breathing and hide the settings overlay. */
  function LeaveSoft(s: System): (r: Out)
    requires s.screens.created
    ensures r.log == [LoadScreen(Main), BreathingStopped, OverlayHidden]
    ensures MainShown(r.s)
    ensures r.s.power == s.power.(breathing := false) && r.s.store == s.store && r.s.caches == s.caches
    ensures r.s.screens == s.screens.(active := Main, overlayHidden := true)
  {
    var st := StopBreathing(s.(screens := s.screens.(active := Main)));
    var h := Ui.HideSettingsOverlay(st.s);
    Out(h.s, [LoadScreen(Main)] + st.log + h.log)
  }

  /** `on_user_activity` at tick `now`. */
  function OnUserActivity(s: System, now: u32): (r: Out)
    ensures r.s.power.state == Active && r.s.power.lastActivity == now
    ensures r.s.store == s.store && r.s.power.locked == s.power.locked && r.s.power.pending == s.power.pending
    ensures s.power.state == Active ==> r == Out(s.(power := s.power.(lastActivity := now)), [])
    ensures s.power.state == Dimmed ==>
      r == Out(s.(power := s.power.(state := Active, lastActivity := now)), [Backlight(BRIGHTNESS_FULL)])
  {
    var s0 := s.(power := s.power.(lastActivity := now));
    if s.power.state == Active then Out(s0, [])
    else
      var wasSoft := s.power.state == SoftPowersave;
      var a := if wasSoft && s.screens.created then LeaveSoft(s0) else Out(s0, []);
      var s2 := a.s.(power := a.s.power.(state := Active));
      var log := a.log + [Backlight(BRIGHTNESS_FULL)];
      if wasSoft then
        var rr := Ui.RefreshMainDisplay(s2);
        Out(rr.s, log + rr.log)
      else Out(s2, log)
  }

  /** Waking from soft powersave: the main screen is loaded, the breathing
      stopped and the overlay hidden before the backlight goes to full, and
      the refresh that follows draws without touching the backlight. The
      modal flag is left as it was. */
  lemma WakeFromSoft(s: System, now: u32)
    requires s.power.state == SoftPowersave && s.screens.created
    ensures var r := OnUserActivity(s, now);
      && |r.log| >= 4
      && r.log[..4] == [LoadScreen(Main), BreathingStopped, OverlayHidden, Backlight(BRIGHTNESS_FULL)]
      && NoBacklight(r.log[4..])
    ensures var r := OnUserActivity(s, now);
      && MainShown(r.s) && !r.s.power.breathing && r.s.screens.overlayHidden
      && r.s.screens.modalVisible == s.screens.modalVisible
    ensures var r := OnUserActivity(s, now);
      !s.screens.modalVisible ==>
        && HrRendered(Ui.HrViewNow(s)) in r.log && CscRendered(Ui.CscViewNow(s)) in r.log
        && (forall j :: 0 <= j < MAX_FANS ==> FanRendered(j, Labels.FanViewOf(s.store.fans[j])) in r.log)
        && Ui.HrFresh(r.s) && (forall j :: 0 <= j < MAX_FANS ==> Ui.FanFresh(r.s, j))
        && r.s.caches.cscStyle == Some(s.store.csc.state)
  {
    WakeOrder(s, now);
    WakeState(s, now);
    WakeRedraws(s, now);
    WakeFreshens(s, now);
  }

  lemma WakeOrder(s: System, now: u32)
    requires s.power.state == SoftPowersave && s.screens.created
    ensures var r := OnUserActivity(s, now);
      && |r.log| >= 4
      && r.log[..4] == [LoadScreen(Main), BreathingStopped, OverlayHidden, Backlight(BRIGHTNESS_FULL)]
      && NoBacklight(r.log[4..])
  {
    var w := Woken(s, now);
    var a := LeaveSoft(s.(power := s.power.(lastActivity := now)));
    WakeUnfold(s, now);
    WakeRefresh(w);
    SplitAfter(a.log + [Backlight(BRIGHTNESS_FULL)], Ui.RefreshMainDisplay(w).log);
  }

  lemma WakeState(s: System, now: u32)
    requires s.power.state == SoftPowersave && s.screens.created
    ensures var r := OnUserActivity(s, now);
      && MainShown(r.s) && !r.s.power.breathing && r.s.screens.overlayHidden
      && r.s.screens.modalVisible == s.screens.modalVisible
  {
    WakeUnfold(s, now);
    WakeRefresh(Woken(s, now));
  }

  /** The device just before the refresh that ends a wake from soft
      powersave: main screen up, state ACTIVE, store and caches untouched. */
  function Woken(s: System, now: u32): (w: System)
    requires s.screens.created
    ensures MainShown(w) && w.power.state == Active && !w.power.breathing && w.screens.overlayHidden
    ensures w.store == s.store && w.caches == s.caches
    ensures w.screens.modalVisible == s.screens.modalVisible
  {
    var a := LeaveSoft(s.(power := s.power.(lastActivity := now)));
    a.s.(power := a.s.power.(state := Active))
  }

  /** A wake from soft powersave is the leaving events and the full
      backlight followed by a refresh of the woken device. */
  lemma WakeUnfold(s: System, now: u32)
    requires s.power.state == SoftPowersave && s.screens.created
    ensures var a := LeaveSoft(s.(power := s.power.(lastActivity := now)));
      var rr := Ui.RefreshMainDisplay(Woken(s, now));
      OnUserActivity(s, now) == Out(rr.s, a.log + [Backlight(BRIGHTNESS_FULL)] + rr.log)
  {
  }

  /** The refresh that ends a wake runs with the state already ACTIVE and
      the main screen loaded, so the gate lets it through: with the modal
      closed it draws every widget from the store ... */
  lemma WakeRedraws(s: System, now: u32)
    requires s.power.state == SoftPowersave && s.screens.created
    ensures var r := OnUserActivity(s, now);
      !s.screens.modalVisible ==>
        && HrRendered(Ui.HrViewNow(s)) in r.log && CscRendered(Ui.CscViewNow(s)) in r.log
        && (forall j :: 0 <= j < MAX_FANS ==> FanRendered(j, Labels.FanViewOf(s.store.fans[j])) in r.log)
  {
    var w := Woken(s, now);
    var a := LeaveSoft(s.(power := s.power.(lastActivity := now)));
    WakeUnfold(s, now);
    Ui.RefreshRendersEverything(w);
    assert Ui.HrViewNow(w) == Ui.HrViewNow(s) && Ui.CscViewNow(w) == Ui.CscViewNow(s);
    InTail(a.log + [Backlight(BRIGHTNESS_FULL)], Ui.RefreshMainDisplay(w).log);
  }

  /** ... and leaves every widget cache fresh. */
  lemma WakeFreshens(s: System, now: u32)
    requires s.power.state == SoftPowersave && s.screens.created
    ensures var r := OnUserActivity(s, now);
      !s.screens.modalVisible ==>
        && Ui.HrFresh(r.s) && (forall j :: 0 <= j < MAX_FANS ==> Ui.FanFresh(r.s, j))
        && r.s.caches.cscStyle == Some(s.store.csc.state)
  {
    WakeUnfold(s, now);
    Ui.RefreshRendersEverything(Woken(s, now));
  }

  lemma InTail(pre: seq<Event>, post: seq<Event>)
    ensures forall e :: e in post ==> e in pre + post
  {
  }

  /** The refresh that ends a wake keeps the screen state (bar the
      pending-refresh flag) and leaves the backlight alone. */
  lemma WakeRefresh(s: System)
    ensures var rr := Ui.RefreshMainDisplay(s);
      && NoBacklight(rr.log) && rr.s.power == s.power
      && rr.s.screens == s.screens.(refreshPending := rr.s.screens.refreshPending)
  {
    RefreshHasNoBacklight(s);
  }

  lemma SplitAfter(pre: seq<Event>, post: seq<Event>)
    ensures (pre + post)[..|pre|] == pre && (pre + post)[|pre|..] == post
  {
  }

  /** A main-screen refresh never touches the backlight. */
  lemma RefreshHasNoBacklight(s: System)
    ensures NoBacklight(Ui.RefreshMainDisplay(s).log)
  {
    var s0 := Ui.Invalidate(s);
    var a := Ui.UpdateHr(s0);
    var b := Ui.UpdateCsc(a.s);
    var c := Ui.UpdateFansFrom(b.s, 0);
    FansHaveNoBacklight(b.s, 0);
    HrHasNoBacklight(s0);
    CscHasNoBacklight(a.s);
  }

  lemma HrHasNoBacklight(s: System)
    ensures NoBacklight(Ui.UpdateHr(s).log)
  {
  }

  lemma CscHasNoBacklight(s: System)
    ensures NoBacklight(Ui.UpdateCsc(s).log)
  {
  }

  lemma {:induction false} FansHaveNoBacklight(s: System, from: nat)
    requires from <= MAX_FANS
    ensures NoBacklight(Ui.UpdateFansFrom(s, from).log)
    decreases MAX_FANS - from
  {
    if from < MAX_FANS {
      var a := Ui.UpdateFan(s, from);
      Ui.FanLogIsRenders(s, from);
      FansHaveNoBacklight(a.s, from + 1);
      RendersThenNoBacklight(a.log, Ui.UpdateFansFrom(a.s, from + 1).log);
    }
  }

  lemma RendersThenNoBacklight(a: seq<Event>, b: seq<Event>)
    requires forall k :: 0 <= k < |a| ==> a[k].MainRender() || a[k].PsRender()
    requires NoBacklight(b)
    ensures NoBacklight(a + b)
  {
    forall k | 0 <= k < |a + b|
      ensures !(a + b)[k].Backlight?
    {
      if k < |a| {
        assert (a + b)[k] == a[k];
      } else {
        assert (a + b)[k] == b[k - |a|];
      }
    }
  }

  /** `main_screen_touch_cb` at tick `now`: reset the timer and wake from
      DIMMED. */
  function MainScreenTouch(s: System, now: u32): (r: Out)
    ensures r.s.power.lastActivity == now && r.s.power.state != Dimmed
    ensures s.power.state == Dimmed <==> r.log == [Backlight(BRIGHTNESS_FULL)]
    ensures s.power.state != Dimmed ==> r.log == [] && r.s.power.state == s.power.state
    ensures r.s == s.(power := r.s.power)
  {
    var p := s.power.(lastActivity := now);
    if s.power.state == Dimmed then Out(s.(power := p.(state := Active)), [Backlight(BRIGHTNESS_FULL)])
    else Out(s.(power := p), [])
  }

  /** A touch on the main screen does what the timer's touch branch does;
      neither wakes the device from soft powersave. */
  lemma MainScreenTouchIsPointerTick(s: System, now: u32)
    ensures MainScreenTouch(s, now) == Tick(s, now, true)
    ensures s.power.state == SoftPowersave ==> MainScreenTouch(s, now).s.power.state == SoftPowersave
  {
  }

  /** `powersave_lock`: no timed transitions from now on; leave soft
      powersave's breathing and any reduced brightness. The screen shown
      is not changed. */
  function Lock(s: System): (r: Out)
    ensures r.s.power.locked && r.s.power.state == Active
    ensures r.s.screens == s.screens && r.s.store == s.store && r.s.ps == s.ps
    ensures s.power.state == Active ==> r == Out(s.(power := s.power.(locked := true)), [])
    ensures s.power.state == Dimmed ==> r.log == [Backlight(BRIGHTNESS_FULL)]
    ensures s.power.state == SoftPowersave ==>
      r.log == [BreathingStopped, Backlight(BRIGHTNESS_FULL)] && !r.s.power.breathing
  {
    var s1 := s.(power := s.power.(locked := true));
    var a := if s.power.state == SoftPowersave then StopBreathing(s1) else Out(s1, []);
    if s.power.state != Active then
      Out(a.s.(power := a.s.power.(state := Active)), a.log + [Backlight(BRIGHTNESS_FULL)])
    else a
  }

  /** `powersave_unlock`. */
  function Unlock(s: System): (r: System)
    ensures !r.power.locked && r.(power := r.power.(locked := s.power.locked)) == s
  {
    s.(power := s.power.(locked := false))
  }

  /** `set_state_active`: state and timer only; no backlight write. */
  function SetStateActive(s: System, now: u32): (r: System)
    ensures r.power.state == Active && r.power.lastActivity == now
    ensures r.(power := r.power.(state := s.power.state, lastActivity := s.power.lastActivity)) == s
  {
    s.(power := s.power.(state := Active, lastActivity := now))
  }

  /** Restart the breathing after a curve change: only in soft powersave. */
  function RestartIfBreathing(s: System): (r: Out)
    ensures s.power.state != SoftPowersave ==> r == Out(s, [])
    ensures s.power.state == SoftPowersave && s.ps.created ==>
      && r.s.power.breathing && |r.log| >= 3
      && r.log[0] == BreathingStopped && r.log[1] == BreathingStopped
      && r.log[|r.log| - 1] == BreathingStarted
    ensures r.s.power.state == s.power.state && r.s.power.inhale == s.power.inhale
    ensures r.s.power.exhale == s.power.exhale && r.s.screens == s.screens && r.s.store == s.store
  {
    if s.power.state == SoftPowersave then
      var a := StopBreathing(s);
      var b := StartBreathing(a.s);
      Out(b.s, a.log + b.log)
    else Out(s, [])
  }

  /** `set_breathing_inhale_curve`. */
  function SetInhaleCurve(s: System, e: Breathing.Ease): (r: Out)
    ensures r.s.power.inhale == e && r.s.power.exhale == s.power.exhale
    ensures r.s.power.state == s.power.state && r.s.screens == s.screens
    ensures s.power.state != SoftPowersave ==> r == Out(s.(power := s.power.(inhale := e)), [])
    ensures s.power.state == SoftPowersave && s.ps.created ==>
      r.s.power.breathing && |r.log| >= 3 && r.log[|r.log| - 1] == BreathingStarted
  {
    RestartIfBreathing(s.(power := s.power.(inhale := e)))
  }

  /** `set_breathing_exhale_curve`. */
  function SetExhaleCurve(s: System, e: Breathing.Ease): (r: Out)
    ensures r.s.power.exhale == e && r.s.power.inhale == s.power.inhale
    ensures r.s.power.state == s.power.state && r.s.screens == s.screens
    ensures s.power.state != SoftPowersave ==> r == Out(s.(power := s.power.(exhale := e)), [])
    ensures s.power.state == SoftPowersave && s.ps.created ==>
      r.s.power.breathing && |r.log| >= 3 && r.log[|r.log| - 1] == BreathingStarted
  {
    RestartIfBreathing(s.(power := s.power.(exhale := e)))
  }

  /** `powersave_init` at tick `now`: needs the main screen; builds the
      powersave screen, resets the timer and sets full brightness. The
      power state and the lock are left alone. */
  function PowersaveInit(s: System, now: u32): (r: Out)
    ensures !s.screens.created ==> r == Out(s, [])
    ensures s.screens.created ==>
      && r.log == [Backlight(BRIGHTNESS_FULL)]
      && r.s.ps.created && r.s.ps.hrLabel == "--" && r.s.ps.mirror == s.ps.mirror
      && r.s.power == s.power.(lastActivity := now)
      && r.s.screens == s.screens && r.s.store == s.store
  {
    if !s.screens.created then Out(s, [])
    else Out(s.(ps := CreatePsScreen(s.ps), power := s.power.(lastActivity := now)), [Backlight(BRIGHTNESS_FULL)])
  }

  /** One firing of the inactivity timer. */
  datatype TickIn = TickIn(now: u32, pointer: bool)

  /** The timer firing once per element of `ticks`, with no other event. */
  function TickRun(s: System, ticks: seq<TickIn>): (r: Out)
    decreases |ticks|
  {
    if |ticks| == 0 then Out(s, [])
    else
      var a := Tick(s, ticks[0].now, ticks[0].pointer);
      var rest := TickRun(a.s, ticks[1..]);
      Out(rest.s, a.log + rest.log)
  }

  function CountDeferred(log: seq<Event>): nat
  {
    multiset(log)[DeferredScheduled]
  }

  /** The pending guard works: however often the timer fires, at most one
      deferred transition is scheduled, and none while one is pending. */
  lemma {:induction false} TicksScheduleOnce(s: System, ticks: seq<TickIn>)
    ensures var r := TickRun(s, ticks);
      && CountDeferred(r.log) <= (if s.power.pending then 0 else 1)
      && (s.power.pending ==> r.s.power.pending)
    decreases |ticks|
  {
    if |ticks| > 0 {
      var a := Tick(s, ticks[0].now, ticks[0].pointer);
      TicksScheduleOnce(a.s, ticks[1..]);
      var rest := TickRun(a.s, ticks[1..]);
      assert multiset(a.log + rest.log) == multiset(a.log) + multiset(rest.log);
      if DeferredScheduled !in a.log {
        assert multiset(a.log)[DeferredScheduled] == 0;
      }
    }
  }

  /** While locked and active, the timer changes nothing but the activity
      time and has no visible effect. */
  lemma {:induction false} LockedTicksAreQuiet(s: System, ticks: seq<TickIn>)
    requires s.power.locked && s.power.state == Active
    ensures var r := TickRun(s, ticks);
      r.log == [] && r.s == s.(power := s.power.(lastActivity := r.s.power.lastActivity))
    decreases |ticks|
  {
    if |ticks| > 0 {
      var a := Tick(s, ticks[0].now, ticks[0].pointer);
      LockedTicksAreQuiet(a.s, ticks[1..]);
    }
  }

  /** The deferred callback does not look at the state: user activity
      between the scheduling tick and the callback does not cancel the
      transition, and the device drops to soft powersave right after it
      was woken. */
  lemma DeferralSurvivesActivity(s: System, t1: u32, t2: u32)
    requires s.power.state == Dimmed && !s.power.locked && !s.power.pending
    requires Sub32(t1, s.power.lastActivity) > SOFT_TIMEOUT_MS
    ensures var a := Tick(s, t1, false);
      var b := OnUserActivity(a.s, t2);
      var c := FireDeferred(b.s);
      && a.log == [DeferredScheduled]
      && b.s.power.state == Active && b.s.power.lastActivity == t2
      && c.s.power.state == SoftPowersave && c.s.screens.active == Powersave
  {
  }

  /** Waking from soft powersave with the settings modal still open: the
      overlay is hidden but the modal flag stays set, so the refresh draws
      nothing, a refresh is owed, and every later widget update is skipped
      by the gate until the modal is opened and closed again. */
  lemma WakeWithModalOpen(s: System, now: u32)
    requires s.power.state == SoftPowersave && s.screens.created && s.screens.modalVisible
    ensures var r := OnUserActivity(s, now);
      && NoMainRender(r.log)
      && MainShown(r.s) && r.s.screens.overlayHidden && r.s.screens.modalVisible
      && r.s.screens.refreshPending
      && Ui.Gate(r.s).skip
  {
    var s0 := s.(power := s.power.(lastActivity := now));
    var a := LeaveSoft(s0);
    var s2 := a.s.(power := a.s.power.(state := Active));
    var log := a.log + [Backlight(BRIGHTNESS_FULL)];
    var rr := Ui.RefreshMainDisplay(s2);
    assert OnUserActivity(s, now) == Out(rr.s, log + rr.log);
    assert rr.log == [];
  }

  /** The whole inactivity cycle on the main screen: dim after 8 s, schedule
      the soft powersave after 20 s, enter it when the deferred callback
      runs, and come back to the main screen at full brightness on a touch. */
  lemma InactivityCycle(s: System, t1: u32, t2: u32, t3: u32)
    requires MainShown(s) && s.power.state == Active && !s.power.locked && !s.power.pending
    requires Sub32(t1, s.power.lastActivity) > DIM_TIMEOUT_MS
    requires Sub32(t2, s.power.lastActivity) > SOFT_TIMEOUT_MS
    ensures var a := Tick(s, t1, false);
      var b := Tick(a.s, t2, false);
      var c := FireDeferred(b.s);
      var d := OnUserActivity(c.s, t3);
      && a.s.power.state == Dimmed && a.log == [Backlight(BRIGHTNESS_DIMMED)]
      && b.log == [DeferredScheduled]
      && c.s.power.state == SoftPowersave && c.s.screens.active == Powersave && c.s.ps.created
      && d.s.power.state == Active && MainShown(d.s) && d.log[3] == Backlight(BRIGHTNESS_FULL)
  {
    var a := Tick(s, t1, false);
    var b := Tick(a.s, t2, false);
    var c := FireDeferred(b.s);
    WakeFromSoft(c.s, t3);
  }
}
