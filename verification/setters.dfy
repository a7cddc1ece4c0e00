/** The public setters of src/homewind_ui.c: each stores what the
    application reports and, only when something changed, updates the
    widget (`homewind_set_hr` … `homewind_set_fan_toggle`), plus the fan
    toggle animation's start decision (`animate_fan_toggle`). */
module Setters {
  import opened Ints
  import opened Wrappers
  import opened Text
  import opened State
  import opened Labels
  import opened Ui

  /** The change guard of `homewind_set_hr` / `homewind_set_csc`: a new
      state, a name that is given and differs from the stored one (the full
      given name is compared, not its truncation), or a new value. */
  predicate Differs<S(==)>(state: S, storedName: string, value: u16,
                           st: S, name: Option<string>, v: u16)
  {
    st != state || (name.Some? && name.value != storedName) || v != value
  }

  /** The name stored after a setter: the given name (its bytes) cut to
      the 31 bytes of the buffer when it differs from the stored one, the stored one
      otherwise. */
  function NewName(stored: string, name: Option<string>): (r: string)
    ensures name.None? ==> r == stored
    ensures name.Some? && |stored| <= NAME_MAX ==> r == TruncateName(name.value)
    ensures |stored| <= NAME_MAX ==> |r| <= NAME_MAX
  {
    if name.Some? && name.value != stored then TruncateName(name.value) else stored
  }

  /** The stored names are byte strings that fit their buffers. */
  predicate NamesFit(s: System)
  {
    && Bytes(s.store.hr.name) && |s.store.hr.name| <= NAME_MAX
    && Bytes(s.store.csc.name) && |s.store.csc.name| <= NAME_MAX
  }

  /** Nothing outside the store, the render caches, the powersave screen
      and the refresh-pending flag changed. */
  predicate SetterFrame(a: System, b: System)
  {
    && b.power == a.power && b.callback == a.callback
    && b.screens == a.screens.(refreshPending := b.screens.refreshPending)
    && b.ps.created == a.ps.created
  }

  /** The HR card is redrawn from the new store: the first event is the
      card's new look, and its cache now matches. */
  lemma HrRedrawn(s: System)
    ensures var r := UpdateHr(s);
      MainShown(s) && !s.screens.modalVisible && !HrFresh(s) ==>
        |r.log| > 0 && r.log[0] == HrRendered(HrViewNow(r.s))
  {
    var r := UpdateHr(s);
    if MainShown(s) && !s.screens.modalVisible && !HrFresh(s) {
      assert r.s.store == s.store;
      assert r.s.caches.hrText.key == s.store.hr.value ==> HrText(r.s) == r.s.caches.hrText;
      if s.store.hr.state == HrActive {
        assert r.s.caches.hrText == HrText(s);
      }
    }
  }

  /** `homewind_set_hr(state, sensor_name, value)`; `None` is a NULL name. */
  function SetHr(s: System, st: HrState, name: Option<string>, value: u16): (r: Out)
    ensures !Differs(s.store.hr.state, s.store.hr.name, s.store.hr.value, st, name, value) ==> r == Out(s, [])
    ensures r.s.store == s.store.(hr := Hr(st, NewName(s.store.hr.name, name), value))
    ensures SetterFrame(s, r.s)
    ensures r.s.caches.fans == s.caches.fans && r.s.caches.cscStyle == s.caches.cscStyle
    ensures Differs(s.store.hr.state, s.store.hr.name, s.store.hr.value, st, name, value) ==>
      && (MainShown(s) && !s.screens.modalVisible ==> HrFresh(r.s) && r.s.screens == s.screens)
      && (MainShown(s) && s.screens.modalVisible ==> r.log == [] && r.s.screens.refreshPending)
      && (MainShown(s) && !s.screens.modalVisible && HrFresh(s) && r.s.store.hr != s.store.hr ==>
            |r.log| > 0 && r.log[0] == HrRendered(HrViewNow(r.s)))
  {
    var hr := s.store.hr;
    if !Differs(hr.state, hr.name, hr.value, st, name, value) then Out(s, [])
    else
      var s1 := s.(store := s.store.(hr := Hr(st, NewName(hr.name, name), value)));
      HrRedrawn(s1);
      UpdateHr(s1)
  }

  /** `homewind_set_hr_state`. */
  function SetHrState(s: System, st: HrState): (r: Out)
    ensures r.s.store == s.store.(hr := s.store.hr.(state := st))
    ensures st == s.store.hr.state ==> r == Out(s, [])
  {
    if st != s.store.hr.state then UpdateHr(s.(store := s.store.(hr := s.store.hr.(state := st))))
    else Out(s, [])
  }

  /** `homewind_set_hr_value`. */
  function SetHrValue(s: System, value: u16): (r: Out)
    ensures r.s.store == s.store.(hr := s.store.hr.(value := value))
    ensures value == s.store.hr.value ==> r == Out(s, [])
  {
    if value != s.store.hr.value then UpdateHr(s.(store := s.store.(hr := s.store.hr.(value := value))))
    else Out(s, [])
  }

  /** The single-field setters are the full setter with a NULL name and the
      other field kept. */
  lemma HrSettersAgree(s: System, st: HrState, value: u16)
    ensures SetHrState(s, st) == SetHr(s, st, None, s.store.hr.value)
    ensures SetHrValue(s, value) == SetHr(s, s.store.hr.state, None, value)
  {
    assert s.store.hr.(state := st) == Hr(st, NewName(s.store.hr.name, None), s.store.hr.value);
    assert s.store.hr.(value := value) == Hr(s.store.hr.state, NewName(s.store.hr.name, None), value);
  }

  /** Repeating a call changes nothing and draws nothing, as long as the
      name fits the buffer. */
  lemma SetHrIdempotent(s: System, st: HrState, name: Option<string>, value: u16)
    requires |s.store.hr.name| <= NAME_MAX
    requires name.Some? ==> |name.value| <= NAME_MAX
    ensures var a := SetHr(s, st, name, value);
      SetHr(a.s, st, name, value) == Out(a.s, [])
  {
  }

  /** A name longer than the buffer is stored truncated, so it never equals
      the stored name and every call with it passes the change guard again. */
  lemma LongHrNameAlwaysDiffers(s: System, st: HrState, name: string, value: u16)
    requires |s.store.hr.name| <= NAME_MAX && |name| > NAME_MAX
    ensures var a := SetHr(s, st, Some(name), value);
      Differs(a.s.store.hr.state, a.s.store.hr.name, a.s.store.hr.value, st, Some(name), value)
  {
    var a := SetHr(s, st, Some(name), value);
    assert |a.s.store.hr.name| <= NAME_MAX;
  }

  /** The 32-byte name buffers never overflow: the HR and CSC setters keep
      both stored names within `NAME_MAX` bytes, whatever byte string they
      are given. */
  lemma SettersKeepNamesFit(s: System, hst: HrState, cst: CscState, name: Option<string>, v: u16)
    requires NamesFit(s)
    requires name.Some? ==> Bytes(name.value)
    ensures NamesFit(SetHr(s, hst, name, v).s)
    ensures NamesFit(SetCsc(s, cst, name, v).s)
  {
  }

  /** `homewind_set_csc(state, sensor_name, cadence)`. The CSC card has no
      dirty cache: a passing change guard always redraws it. */
  function SetCsc(s: System, st: CscState, name: Option<string>, cadence: u16): (r: Out)
    ensures !Differs(s.store.csc.state, s.store.csc.name, s.store.csc.cadence, st, name, cadence) ==> r == Out(s, [])
    ensures r.s.store == s.store.(csc := Csc(st, NewName(s.store.csc.name, name), cadence))
    ensures SetterFrame(s, r.s)
    ensures r.s.caches.fans == s.caches.fans && r.s.caches.hr == s.caches.hr
    ensures Differs(s.store.csc.state, s.store.csc.name, s.store.csc.cadence, st, name, cadence) ==>
      && (MainShown(s) && s.screens.modalVisible ==> r.log == [] && r.s.screens.refreshPending)
      && (MainShown(s) && !s.screens.modalVisible ==>
            CscRendered(CscViewNow(r.s)) in r.log && r.s.caches.cscStyle == Some(st))
  {
    var csc := s.store.csc;
    if !Differs(csc.state, csc.name, csc.cadence, st, name, cadence) then Out(s, [])
    else
      var s1 := s.(store := s.store.(csc := Csc(st, NewName(csc.name, name), cadence)));
      CscRedrawn(s1);
      UpdateCsc(s1)
  }

  lemma CscRedrawn(s: System)
    ensures var r := UpdateCsc(s);
      MainShown(s) && !s.screens.modalVisible ==> CscRendered(CscViewNow(r.s)) in r.log
  {
    var r := UpdateCsc(s);
    if MainShown(s) && !s.screens.modalVisible {
      var k := if s.caches.cscStyle != Some(s.store.csc.state) then 1 else 0;
      assert r.log[k] == CscRendered(CscViewNow(s));
      assert r.s.store == s.store;
      if s.store.csc.state == CscActive {
        assert r.s.caches.cscText == CscText(s);
      }
      assert CscViewNow(r.s) == CscViewNow(s);
    }
  }

  /** `homewind_set_csc_state`. */
  function SetCscState(s: System, st: CscState): (r: Out)
    ensures r.s.store == s.store.(csc := s.store.csc.(state := st))
    ensures st == s.store.csc.state ==> r == Out(s, [])
  {
    if st != s.store.csc.state then UpdateCsc(s.(store := s.store.(csc := s.store.csc.(state := st))))
    else Out(s, [])
  }

  /** `homewind_set_csc_cadence`. */
  function SetCscCadence(s: System, cadence: u16): (r: Out)
    ensures r.s.store == s.store.(csc := s.store.csc.(cadence := cadence))
    ensures cadence == s.store.csc.cadence ==> r == Out(s, [])
  {
    if cadence != s.store.csc.cadence then UpdateCsc(s.(store := s.store.(csc := s.store.csc.(cadence := cadence))))
    else Out(s, [])
  }

  lemma CscSettersAgree(s: System, st: CscState, cadence: u16)
    ensures SetCscState(s, st) == SetCsc(s, st, None, s.store.csc.cadence)
    ensures SetCscCadence(s, cadence) == SetCsc(s, s.store.csc.state, None, cadence)
  {
    assert s.store.csc.(state := st) == Csc(st, NewName(s.store.csc.name, None), s.store.csc.cadence);
    assert s.store.csc.(cadence := cadence) == Csc(s.store.csc.state, NewName(s.store.csc.name, None), cadence);
  }

  /** The powersave mirror, when its screen exists, holds the summary of
      the store. */
  predicate MirrorsStore(s: System)
  {
    s.ps.created ==> s.ps.mirrored && s.ps.mirror == SummaryOf(s)
  }

  /** `update_fan_item(i)` followed by `update_powersave_display()`, the
      tail every fan setter shares. */
  function FanTail(s: System, i: u8): (r: Out)
    requires i < MAX_FANS
    ensures r.s.store == s.store && SetterFrame(s, r.s) && MirrorsStore(r.s)
    ensures r.s.caches.hr == s.caches.hr && r.s.caches.cscStyle == s.caches.cscStyle
  {
    var a := UpdateFan(s, i);
    var b := UpdatePowersaveDisplay(a.s);
    Out(b.s, a.log + b.log)
  }

  /** On the main screen with the modal closed, the fan tail leaves the
      fan's cache fresh and draws the fan when its cache was stale; over
      the open modal it draws nothing and owes a refresh. */
  lemma FanTailDraws(s: System, i: u8)
    requires i < MAX_FANS
    ensures var r := FanTail(s, i);
      && (MainShown(s) && !s.screens.modalVisible ==>
            && FanFresh(r.s, i as int) && r.s.screens == s.screens
            && (!FanFresh(s, i as int) ==> FanRendered(i as nat, FanViewOf(s.store.fans[i])) in r.log))
      && (MainShown(s) && s.screens.modalVisible ==> NoMainRender(r.log) && r.s.screens.refreshPending)
  {
    var a := UpdateFan(s, i);
    var b := UpdatePowersaveDisplay(a.s);
    var log := a.log + b.log;
    if MainShown(s) && !s.screens.modalVisible && !FanFresh(s, i as int) {
      assert log[0] == a.log[0];
    }
  }

  /** `homewind_set_fan(i, state, is_on)`. */
  function SetFan(s: System, i: u8, st: FanState, on: bool): (r: Out)
    ensures i >= MAX_FANS || s.store.fans[i] == Fan(st, on) ==> r == Out(s, [])
    ensures i < MAX_FANS ==> r.s.store == s.store.(fans := s.store.fans[i := Fan(st, on)])
    ensures SetterFrame(s, r.s)
    ensures i < MAX_FANS && s.store.fans[i] != Fan(st, on) ==>
      && MirrorsStore(r.s)
      && (MainShown(s) && !s.screens.modalVisible ==> FanFresh(r.s, i as int))
      && (MainShown(s) && !s.screens.modalVisible && FanFresh(s, i as int) ==>
            FanRendered(i as nat, FanViewOf(Fan(st, on))) in r.log)
  {
    if i >= MAX_FANS || s.store.fans[i] == Fan(st, on) then Out(s, [])
    else
      var s1 := s.(store := s.store.(fans := s.store.fans[i := Fan(st, on)]));
      FanTailDraws(s1, i);
      FanTail(s1, i)
  }

  /** `homewind_set_fan_state(i, state)`: a fan that becomes not configured
      or inactive is also switched off. */
  function SetFanState(s: System, i: u8, st: FanState): (r: Out)
    ensures i >= MAX_FANS || s.store.fans[i].state == st ==> r == Out(s, [])
    ensures i < MAX_FANS && s.store.fans[i].state != st ==>
      && r.s.store.fans[i].state == st
      && (st == FanNotConfigured || st == FanInactive ==> !r.s.store.fans[i].isOn)
      && (st == FanActive || st == FanError ==> r.s.store.fans[i].isOn == s.store.fans[i].isOn)
      && forall j :: 0 <= j < MAX_FANS && j != i as int ==> r.s.store.fans[j] == s.store.fans[j]
  {
    if i >= MAX_FANS || s.store.fans[i].state == st then Out(s, [])
    else
      var on := if st == FanNotConfigured || st == FanInactive then false else s.store.fans[i].isOn;
      FanTail(s.(store := s.store.(fans := s.store.fans[i := Fan(st, on)])), i)
  }

  /** Changing only the state is `homewind_set_fan` with the on-flag the
      state setter leaves. */
  lemma SetFanStateIsSetFan(s: System, i: u8, st: FanState)
    requires i < MAX_FANS && s.store.fans[i].state != st
    ensures var on := if st == FanNotConfigured || st == FanInactive then false else s.store.fans[i].isOn;
      SetFanState(s, i, st) == SetFan(s, i, st, on)
  {
  }

  /** `homewind_set_fan` stores the on-flag as given even for a state
      without one: an inactive fan can be stored as on, while
      `homewind_set_fan_state` to inactive clears it. Both draw the same
      pill, since an inactive fan always looks off. */
  lemma SetFanKeepsOnFlag(s: System, i: u8)
    requires i < MAX_FANS && s.store.fans[i].state != FanInactive
    ensures SetFan(s, i, FanInactive, true).s.store.fans[i] == Fan(FanInactive, true)
    ensures SetFanState(s, i, FanInactive).s.store.fans[i] == Fan(FanInactive, false)
    ensures FanViewOf(Fan(FanInactive, true)) == FanViewOf(Fan(FanInactive, false)) == PillOff
  {
  }

  /** `animate_fan_toggle(i)`: stop the fan's running colour animation,
      then start one towards the end colour for an on/off pill. The start
      colour is the card's current colour, which is not modelled. */
  function AnimateFanToggle(s: System, i: u8): (log: seq<Event>)
    ensures i >= MAX_FANS || !s.screens.created ==> log == []
    ensures i < MAX_FANS && s.screens.created ==>
      && |log| >= 1 && log[0] == FanAnimStopped(i as nat)
      && (|log| == 2 <==> AnimEndColor(s.store.fans[i]).Some?)
      && |log| <= 2
      && (|log| == 2 ==> log[1] == FanAnimStarted(i as nat, PillColor(FanViewOf(s.store.fans[i]))))
  {
    if i >= MAX_FANS || !s.screens.created then []
    else
      var f := s.store.fans[i];
      AnimEndsOnPillColor(f);
      match AnimEndColor(f)
      case None => [FanAnimStopped(i as nat)]
      case Some(c) => [FanAnimStopped(i as nat), FanAnimStarted(i as nat, c)]
  }

  /** `homewind_set_fan_toggle(i, is_on)`: like `homewind_set_fan` with the
      state kept, plus the colour animation between the redraw and the
      powersave update. */
  function SetFanToggle(s: System, i: u8, on: bool): (r: Out)
    ensures i >= MAX_FANS || s.store.fans[i].isOn == on ==> r == Out(s, [])
    ensures i < MAX_FANS ==> r.s.store == s.store.(fans := s.store.fans[i := s.store.fans[i].(isOn := on)])
    ensures SetterFrame(s, r.s)
    ensures i < MAX_FANS && s.store.fans[i].isOn != on ==>
      MirrorsStore(r.s) && (s.screens.created ==> FanAnimStopped(i as nat) in r.log)
  {
    if i >= MAX_FANS || s.store.fans[i].isOn == on then Out(s, [])
    else
      var s1 := s.(store := s.store.(fans := s.store.fans[i := s.store.fans[i].(isOn := on)]));
      var a := UpdateFan(s1, i);
      var anim := AnimateFanToggle(a.s, i);
      var b := UpdatePowersaveDisplay(a.s);
      assert a.s.screens.created == s.screens.created;
      assert s.screens.created ==> (a.log + anim + b.log)[|a.log|] == FanAnimStopped(i as nat);
      Out(b.s, a.log + anim + b.log)
  }

  /** The toggle setter ends in the same state as the general setter with
      the state kept; it only adds the animation events. */
  lemma SetFanToggleIsSetFan(s: System, i: u8, on: bool)
    requires i < MAX_FANS
    ensures SetFanToggle(s, i, on).s == SetFan(s, i, s.store.fans[i].state, on).s
  {
    assert Fan(s.store.fans[i].state, on) == s.store.fans[i].(isOn := on);
  }

  /** `homewind_set_fan_toggle_callback`; `false` is a NULL callback. */
  function SetFanToggleCallback(s: System, registered: bool): (r: System)
    ensures r.callback == registered
    ensures r.(callback := s.callback) == s
  {
    s.(callback := registered)
  }
}
