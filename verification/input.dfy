/** The touch handlers of the main screen (src/homewind_ui.c): the fan
    pill tap, the settings button, and the settings modal's round trip.
    Each handler first counts as user activity. */
module Input {
  import opened Ints
  import opened Wrappers
  import opened State
  import opened Labels
  import Ui
  import Setters
  import Power

  /** What `fan_toggle_event_cb` does after the activity, for fan `i`.
      Only an active fan toggles; a fan in error only reports the tap
      (with "off") to the registered callback. */
  function Tapped(s: System, i: u8): (r: Out)
    ensures r.s.power == s.power && r.s.callback == s.callback
    ensures i >= MAX_FANS || s.store.fans[i].state in {FanNotConfigured, FanInactive} ==> r == Out(s, [])
    ensures i < MAX_FANS && s.store.fans[i].state == FanError ==>
      r == Out(s, if s.callback then [FanCallback(i as nat, false)] else [])
    ensures i < MAX_FANS && s.store.fans[i].state == FanActive ==>
      && r.s.store == s.store.(fans := s.store.fans[i := Fan(FanActive, !s.store.fans[i].isOn)])
      && (s.callback <==> |r.log| > 0 && r.log[0] == FanCallback(i as nat, !s.store.fans[i].isOn))
      && (s.screens.created ==> FanAnimStopped(i as nat) in r.log)
  {
    if i >= MAX_FANS then Out(s, [])
    else
      match s.store.fans[i].state
      case FanNotConfigured => Out(s, [])
      case FanInactive => Out(s, [])
      case FanError => Out(s, if s.callback then [FanCallback(i as nat, false)] else [])
      case FanActive => ToggledLog(s, i); Toggled(s, i)
  }

  /** The tap on an active fan: flip its on-flag, report the new flag to
      the callback, redraw the pill and start its colour animation. */
  function Toggled(s: System, i: u8): (r: Out)
    requires i < MAX_FANS && s.store.fans[i].state == FanActive
    ensures r.s.power == s.power && r.s.callback == s.callback
    ensures r.s.store == s.store.(fans := s.store.fans[i := Fan(FanActive, !s.store.fans[i].isOn)])
  {
    var on := !s.store.fans[i].isOn;
    var s1 := s.(store := s.store.(fans := s.store.fans[i := Fan(FanActive, on)]));
    var cb := if s1.callback then [FanCallback(i as nat, on)] else [];
    var u := Ui.UpdateFan(s1, i);
    Out(u.s, cb + u.log + Setters.AnimateFanToggle(u.s, i))
  }

  /** The toggle's log starts with the callback report exactly when a
      callback is registered, and holds the animation stop once the UI
      exists. */
  lemma ToggledLog(s: System, i: u8)
    requires i < MAX_FANS && s.store.fans[i].state == FanActive
    ensures var r := Toggled(s, i);
      && (s.callback <==> |r.log| > 0 && r.log[0] == FanCallback(i as nat, !s.store.fans[i].isOn))
      && (s.screens.created ==> FanAnimStopped(i as nat) in r.log)
  {
    ToggledCallbackFirst(s, i);
    ToggledStopsAnim(s, i);
  }

  lemma ToggledCallbackFirst(s: System, i: u8)
    requires i < MAX_FANS && s.store.fans[i].state == FanActive
    ensures var r := Toggled(s, i);
      s.callback <==> |r.log| > 0 && r.log[0] == FanCallback(i as nat, !s.store.fans[i].isOn)
  {
    var on := !s.store.fans[i].isOn;
    var s1 := s.(store := s.store.(fans := s.store.fans[i := Fan(FanActive, on)]));
    var cb := if s1.callback then [FanCallback(i as nat, on)] else [];
    var u := Ui.UpdateFan(s1, i);
    Ui.FanLogIsRenders(s1, i);
    CallbackFirst(cb, u.log, Setters.AnimateFanToggle(u.s, i), FanCallback(i as nat, on));
  }

  lemma ToggledStopsAnim(s: System, i: u8)
    requires i < MAX_FANS && s.store.fans[i].state == FanActive
    ensures s.screens.created ==> FanAnimStopped(i as nat) in Toggled(s, i).log
  {
    var on := !s.store.fans[i].isOn;
    var s1 := s.(store := s.store.(fans := s.store.fans[i := Fan(FanActive, on)]));
    var cb := if s1.callback then [FanCallback(i as nat, on)] else [];
    var u := Ui.UpdateFan(s1, i);
    var anim := Setters.AnimateFanToggle(u.s, i);
    if s.screens.created {
      assert (cb + u.log + anim)[|cb| + |u.log|] == anim[0];
    }
  }

  /** A log made of an optional callback report, renders, and animation
      events starts with the report exactly when there is one, and holds
      every animation event. */
  lemma CallbackFirst(cb: seq<Event>, renders: seq<Event>, anim: seq<Event>, c: Event)
    requires c.FanCallback?
    requires cb == [] || cb == [c]
    requires forall k :: 0 <= k < |renders| ==> renders[k].MainRender() || renders[k].PsRender()
    requires forall k :: 0 <= k < |anim| ==> !anim[k].FanCallback?
    ensures cb == [c] <==> |cb + renders + anim| > 0 && (cb + renders + anim)[0] == c
    ensures forall k :: 0 <= k < |anim| ==> anim[k] in cb + renders + anim
  {
    var log := cb + renders + anim;
    forall k | 0 <= k < |anim|
      ensures anim[k] in log
    {
      assert log[|cb| + |renders| + k] == anim[k];
    }
    if cb == [] && |log| > 0 {
      if |renders| > 0 {
        assert log[0] == renders[0];
      } else {
        assert log[0] == anim[0];
      }
    }
  }

  /** `fan_toggle_event_cb` for a click on fan `i` at tick `now`. */
  function FanTap(s: System, i: u8, now: u32): (r: Out)
    ensures var a := Power.OnUserActivity(s, now);
      var t := Tapped(a.s, i);
      r.s == t.s && r.log == a.log + t.log
    ensures r.s.power.state == Active && r.s.power.lastActivity == now
  {
    var a := Power.OnUserActivity(s, now);
    var t := Tapped(a.s, i);
    Out(t.s, a.log + t.log)
  }

  /** Tapping an active fan is the application's own toggle setter, except
      that the powersave mirror is not refreshed. */
  lemma TapIsToggle(s: System, i: u8)
    requires i < MAX_FANS && s.store.fans[i].state == FanActive
    ensures Tapped(s, i).s.store == Setters.SetFanToggle(s, i, !s.store.fans[i].isOn).s.store
  {
  }

  /** Two taps on an active fan give back the stored on-flag. */
  lemma TapTwiceRestores(s: System, i: u8, t1: u32, t2: u32)
    requires i < MAX_FANS && s.store.fans[i].state == FanActive
    ensures FanTap(FanTap(s, i, t1).s, i, t2).s.store == s.store
  {
    TapFlips(s, i, t1);
    var first := FanTap(s, i, t1);
    TapFlips(first.s, i, t2);
    assert first.s.store.fans[i := Fan(FanActive, s.store.fans[i].isOn)] == s.store.fans;
  }

  /** A tap on an active fan flips its stored on-flag and nothing else in
      the store. */
  lemma TapFlips(s: System, i: u8, now: u32)
    requires i < MAX_FANS && s.store.fans[i].state == FanActive
    ensures FanTap(s, i, now).s.store == s.store.(fans := s.store.fans[i := Fan(FanActive, !s.store.fans[i].isOn)])
  {
    var a := Power.OnUserActivity(s, now);
    assert a.s.store == s.store;
  }

  /** `settings_btn_event_cb`: activity, then the modal slides in. */
  function SettingsButton(s: System, now: u32): (r: Out)
    ensures r.s.power.state == Active && r.s.power.lastActivity == now
    ensures r.s.screens.modalVisible && !r.s.screens.refreshPending && !r.s.screens.overlayHidden
    ensures |r.log| > 0 && r.log[|r.log| - 1] == OverlayShown
    ensures r.s.store == s.store
  {
    var a := Power.OnUserActivity(s, now);
    var b := Ui.OpenOverlay(a.s);
    Out(b.s, a.log + b.log)
  }

  /** The modal defers updates instead of dropping them: a sensor change
      while it is open draws nothing, and closing it draws the HR card
      from the new value. */
  lemma ModalDefersUpdate(s: System, st: HrState, name: Option<string>, v: u16)
    requires MainShown(s)
    requires Setters.Differs(s.store.hr.state, s.store.hr.name, s.store.hr.value, st, name, v)
    ensures var a := Ui.OpenOverlay(s);
      var b := Setters.SetHr(a.s, st, name, v);
      var c := Ui.OverlayClosed(b.s);
      && NoMainRender(b.log)
      && b.s.screens.refreshPending
      && HrRendered(Ui.HrViewNow(b.s)) in c.log
      && Ui.HrFresh(c.s) && !c.s.screens.modalVisible
  {
    var a := Ui.OpenOverlay(s);
    var b := Setters.SetHr(a.s, st, name, v);
    assert MainShown(a.s) && a.s.store.hr == s.store.hr;
    assert MainShown(b.s);
  }
}
