/** The main screen's state logic (src/homewind_ui.c): the sensor store and
    its change-guarded setters, the render gate, the widgets' dirty caches,
    the settings modal's flags and the fan toggle animation's colour
    choice. Each widget update emits one render event carrying what the
    widget shows; LVGL calls themselves are not modelled. */
module Ui {
  import opened Ints
  import opened Wrappers
  import opened Text
  import opened State
  import opened Labels
  import Mirror

  /** `count_configured_fans`: fans in any state but not configured. */
  function CountConfigured(fans: seq<Fan>): (n: nat)
    ensures n <= |fans|
  {
    if |fans| == 0 then 0
    else CountConfigured(fans[..|fans| - 1]) + (if fans[|fans| - 1].state != FanNotConfigured then 1 else 0)
  }

  /** `count_fans_on`: configured fans whose on-flag is set. */
  function CountOn(fans: seq<Fan>): (n: nat)
    ensures n <= CountConfigured(fans)
  {
    if |fans| == 0 then 0
    else CountOn(fans[..|fans| - 1])
         + (if fans[|fans| - 1].state != FanNotConfigured && fans[|fans| - 1].isOn then 1 else 0)
  }

  predicate Configured(f: Fan) { f.state != FanNotConfigured }

  predicate Running(f: Fan) { f.state != FanNotConfigured && f.isOn }

  /** `count_configured_fans` is the number of configured fans. */
  lemma {:induction false} CountConfiguredIsCardinality(fans: seq<Fan>)
    ensures CountConfigured(fans) == |set i | 0 <= i < |fans| && Configured(fans[i])|
    decreases |fans|
  {
    if |fans| > 0 {
      var n := |fans| - 1;
      var init := fans[..n];
      CountConfiguredIsCardinality(init);
      var c0 := set i | 0 <= i < |init| && Configured(init[i]);
      var c1 := set i | 0 <= i < |fans| && Configured(fans[i]);
      var last: set<int> := if Configured(fans[n]) then {n} else {};
      forall i ensures i in c1 <==> i in c0 + last {
        if 0 <= i < n { assert init[i] == fans[i]; }
      }
      assert c1 == c0 + last;
      assert c0 !! last;
    }
  }

  /** `count_fans_on` is the number of configured fans that are on. */
  lemma {:induction false} CountOnIsCardinality(fans: seq<Fan>)
    ensures CountOn(fans) == |set i | 0 <= i < |fans| && Running(fans[i])|
    decreases |fans|
  {
    if |fans| > 0 {
      var n := |fans| - 1;
      var init := fans[..n];
      CountOnIsCardinality(init);
      var r0 := set i | 0 <= i < |init| && Running(init[i]);
      var r1 := set i | 0 <= i < |fans| && Running(fans[i]);
      var last: set<int> := if Running(fans[n]) then {n} else {};
      forall i ensures i in r1 <==> i in r0 + last {
        if 0 <= i < n { assert init[i] == fans[i]; }
      }
      assert r1 == r0 + last;
      assert r0 !! last;
    }
  }

  /** The counts are zero exactly when no fan qualifies, and full exactly
      when every fan does. */
  lemma {:induction false} CountsMeaning(fans: seq<Fan>)
    ensures CountConfigured(fans) == 0 <==> forall i :: 0 <= i < |fans| ==> !Configured(fans[i])
    ensures CountConfigured(fans) == |fans| <==> forall i :: 0 <= i < |fans| ==> Configured(fans[i])
    ensures CountOn(fans) == 0 <==> forall i :: 0 <= i < |fans| ==> !Running(fans[i])
    decreases |fans|
  {
    if |fans| > 0 {
      var init := fans[..|fans| - 1];
      CountsMeaning(init);
      assert forall i :: 0 <= i < |init| ==> init[i] == fans[i];
    }
  }

  /** The summary `update_powersave_display` hands to the mirror. */
  function SummaryOf(s: System): (m: Summary)
    ensures m.fanActive <= m.fanTotal <= MAX_FANS
    ensures m.hrState == s.store.hr.state && m.hrValue == s.store.hr.value
    ensures m.cscState == s.store.csc.state && m.cscValue == s.store.csc.cadence
  {
    var total := CountConfigured(s.store.fans);
    var on := CountOn(s.store.fans);
    Summary(s.store.hr.state, s.store.csc.state, s.store.hr.value, s.store.csc.cadence, on, total)
  }

  /** Nothing but the caches, the powersave screen and the refresh-pending
      flag changed between `a` and `b`. */
  predicate RenderFrame(a: System, b: System)
  {
    && b.power == a.power && b.store == a.store && b.callback == a.callback
    && b.screens == a.screens.(refreshPending := b.screens.refreshPending)
    && b.ps.created == a.ps.created
    && (b.screens.refreshPending ==> a.screens.refreshPending || a.screens.modalVisible)
  }

  /** `update_powersave_display`: push the current summary to the mirror. */
  function UpdatePowersaveDisplay(s: System): (r: Out)
    ensures r.s == s.(ps := r.s.ps)
    ensures !s.ps.created ==> r == Out(s, [])
    ensures s.ps.created ==> r.s.ps.created && r.s.ps.mirrored && r.s.ps.mirror == SummaryOf(s)
    ensures s.ps.created && !Mirror.Renders(s.ps, s.power.state) ==> r.log == []
    ensures forall i :: 0 <= i < |r.log| ==> r.log[i].PsRender()
  {
    var p := Mirror.UpdateIcons(s.ps, s.power.state, SummaryOf(s));
    Out(s.(ps := p.ps), p.log)
  }

  /** Outcome of the gate: whether the caller must return, and the effects
      the gate itself had. */
  datatype Gated = Gated(skip: bool, out: Out)

  /** `should_skip_main_screen_update`: skip unless the main screen is
      shown with the modal closed. Off the main screen it also mirrors the
      summary, but only in soft powersave; over the open modal it records
      that a refresh is owed. */
  function Gate(s: System): (g: Gated)
    ensures g.skip <==> !MainShown(s) || s.screens.modalVisible
    ensures !g.skip ==> g.out == Out(s, [])
    ensures !MainShown(s) && s.power.state != SoftPowersave ==> g.out == Out(s, [])
    ensures !MainShown(s) && s.power.state == SoftPowersave ==>
      g.out.s == s.(ps := g.out.s.ps) && (s.ps.created ==> g.out.s.ps.mirror == SummaryOf(s))
    ensures MainShown(s) && s.screens.modalVisible ==>
      g.out == Out(s.(screens := s.screens.(refreshPending := true)), [])
    ensures RenderFrame(s, g.out.s) && NoMainRender(g.out.log)
  {
    if !MainShown(s) then
      Gated(true, if s.power.state == SoftPowersave then UpdatePowersaveDisplay(s) else Out(s, []))
    else if s.screens.modalVisible then
      Gated(true, Out(s.(screens := s.screens.(refreshPending := true)), []))
    else Gated(false, Out(s, []))
  }

  /** The HR cache matches the stored sensor. */
  predicate HrFresh(s: System)
  {
    var c := s.caches.hr;
    var hr := s.store.hr;
    c.initialized && c.state == hr.state && c.value == hr.value && c.name == hr.name
  }

  /** The HR value text after `get_hr_value_string`. */
  function HrText(s: System): NumText
  {
    Lookup(s.caches.hrText, HrValueFormat, s.store.hr.value)
  }

  /** What the HR card shows for the stored sensor. */
  function HrViewNow(s: System): HrView
  {
    HrViewOf(s.store.hr.state, s.store.hr.name, HrText(s).text)
  }

  /** `update_hr_widget`. The value text is formatted (and its cache
      updated) only for a connected sensor. */
  function UpdateHr(s: System): (r: Out)
    ensures RenderFrame(s, r.s)
    ensures r.s.caches == s.caches.(hr := r.s.caches.hr, hrText := r.s.caches.hrText)
    ensures s.caches.hrText.key == s.store.hr.value ==> r.s.caches.hrText == s.caches.hrText
    ensures !MainShown(s) || s.screens.modalVisible ==> r == Gate(s).out
    ensures MainShown(s) && !s.screens.modalVisible && HrFresh(s) ==> r == Out(s, [])
    ensures MainShown(s) && !s.screens.modalVisible && !HrFresh(s) ==>
      && HrFresh(r.s)
      && |r.log| > 0 && r.log[0] == HrRendered(HrViewNow(s))
      && NoMainRender(r.log[1..])
      && r.s.screens == s.screens
  {
    var g := Gate(s);
    if g.skip then g.out
    else if HrFresh(s) then Out(s, [])
    else
      var hr := s.store.hr;
      var text := if hr.state == HrActive then HrText(s) else s.caches.hrText;
      var s1 := s.(caches := s.caches.(hr := HrCache(true, hr.state, hr.value, hr.name), hrText := text));
      var p := UpdatePowersaveDisplay(s1);
      Out(p.s, [HrRendered(HrViewNow(s))] + p.log)
  }

  /** The cadence text after `get_csc_cadence_string`. */
  function CscText(s: System): NumText
  {
    Lookup(s.caches.cscText, CadenceFormat, s.store.csc.cadence)
  }

  /** What the CSC card shows for the stored sensor. */
  function CscViewNow(s: System): CscView
  {
    var csc := s.store.csc;
    CscView(csc.state == CscActive, csc.name, CscStatus(csc.state, CscText(s).text))
  }

  /** The drawing half of `update_csc_widget`, past the gate: restyle the
      card when its state differs from the last one styled, then draw it. */
  function DrawCsc(s: System): (r: Out)
    ensures r.s == s.(caches := r.s.caches, ps := r.s.ps) && r.s.ps.created == s.ps.created
    ensures r.s.caches == s.caches.(cscStyle := Some(s.store.csc.state), cscText := r.s.caches.cscText)
    ensures var k := if s.caches.cscStyle != Some(s.store.csc.state) then 1 else 0;
      && |r.log| > k
      && (k == 1 ==> r.log[0] == CscStyled(s.store.csc.state != CscNotConfigured))
      && r.log[k] == CscRendered(CscViewNow(s))
      && NoMainRender(r.log[k + 1..])
  {
    var csc := s.store.csc;
    var style := if s.caches.cscStyle != Some(csc.state) then [CscStyled(csc.state != CscNotConfigured)] else [];
    var text := if csc.state == CscActive then CscText(s) else s.caches.cscText;
    var s1 := s.(caches := s.caches.(cscStyle := Some(csc.state), cscText := text));
    var p := UpdatePowersaveDisplay(s1);
    LogAround(style, CscRendered(CscViewNow(s)), p.log);
    PsRendersAreNotMain(p.log);
    Out(p.s, style + [CscRendered(CscViewNow(s))] + p.log)
  }

  /** Where the pieces of `pre + [e] + post` sit. */
  lemma LogAround(pre: seq<Event>, e: Event, post: seq<Event>)
    ensures var log := pre + [e] + post;
      && |log| > |pre| && log[|pre|] == e && log[|pre| + 1..] == post
      && (|pre| > 0 ==> log[0] == pre[0])
  {
    var log := pre + [e] + post;
    assert log[|pre| + 1..] == post;
  }

  lemma PsRendersAreNotMain(log: seq<Event>)
    requires forall k :: 0 <= k < |log| ==> log[k].PsRender()
    ensures NoMainRender(log)
  {
  }

  /** `update_csc_widget`: no dirty cache, only the card style is applied
      when the state differs from the last one styled. */
  function UpdateCsc(s: System): (r: Out)
    ensures RenderFrame(s, r.s)
    ensures r.s.caches == s.caches.(cscStyle := r.s.caches.cscStyle, cscText := r.s.caches.cscText)
    ensures !s.screens.created ==> r == Out(s, [])
    ensures s.screens.created && !MainShown(s) ==> r == Gate(s).out
    ensures MainShown(s) && s.screens.modalVisible ==> r == Out(s.(screens := s.screens.(refreshPending := true)), [])
    ensures MainShown(s) && !s.screens.modalVisible ==>
      var k := if s.caches.cscStyle != Some(s.store.csc.state) then 1 else 0;
      && r.s.caches.cscStyle == Some(s.store.csc.state)
      && |r.log| > k
      && (k == 1 ==> r.log[0] == CscStyled(s.store.csc.state != CscNotConfigured))
      && r.log[k] == CscRendered(CscViewNow(s))
      && NoMainRender(r.log[k + 1..])
      && r.s.screens == s.screens
  {
    if !s.screens.created then Out(s, [])
    else
      var g := Gate(s);
      if g.skip then g.out else DrawCsc(s)
  }

  /** Fan `i`'s cache matches the stored fan. */
  predicate FanFresh(s: System, i: int)
    requires 0 <= i < MAX_FANS
  {
    var c := s.caches.fans[i];
    c.initialized && c.state == s.store.fans[i].state && c.isOn == s.store.fans[i].isOn
  }

  /** `update_fan_item(i)`. */
  function UpdateFan(s: System, i: u8): (r: Out)
    ensures RenderFrame(s, r.s)
    ensures r.s.caches.hr == s.caches.hr && r.s.caches.cscStyle == s.caches.cscStyle
    ensures r.s.caches.hrText == s.caches.hrText && r.s.caches.cscText == s.caches.cscText
    ensures forall j :: 0 <= j < MAX_FANS && j != i ==> r.s.caches.fans[j] == s.caches.fans[j]
    ensures i >= MAX_FANS || !s.screens.created ==> r == Out(s, [])
    ensures i < MAX_FANS && s.screens.created && (!MainShown(s) || s.screens.modalVisible) ==> r == Gate(s).out
    ensures i < MAX_FANS && MainShown(s) && !s.screens.modalVisible && FanFresh(s, i) ==> r == Out(s, [])
    ensures i < MAX_FANS && MainShown(s) && !s.screens.modalVisible && !FanFresh(s, i) ==>
      && FanFresh(r.s, i)
      && |r.log| > 0 && r.log[0] == FanRendered(i, FanViewOf(s.store.fans[i]))
      && NoMainRender(r.log[1..])
      && r.s.screens == s.screens
  {
    if i >= MAX_FANS || !s.screens.created then Out(s, [])
    else
      var g := Gate(s);
      if g.skip then g.out
      else if FanFresh(s, i) then Out(s, [])
      else
        var f := s.store.fans[i];
        var s1 := s.(caches := s.caches.(fans := s.caches.fans[i := FanCache(true, f.state, f.isOn)]));
        var p := UpdatePowersaveDisplay(s1);
        Out(p.s, [FanRendered(i, FanViewOf(f))] + p.log)
  }

  /** A fan update emits renders only. */
  lemma FanLogIsRenders(s: System, i: u8)
    ensures var u := UpdateFan(s, i);
      forall k :: 0 <= k < |u.log| ==> u.log[k].MainRender() || u.log[k].PsRender()
  {
  }

  /** Fans `from` to 3 updated in order (the loops over `MAX_FANS`). */
  function UpdateFansFrom(s: System, from: nat): (r: Out)
    requires from <= MAX_FANS
    ensures RenderFrame(s, r.s)
    ensures r.s.caches.hr == s.caches.hr && r.s.caches.cscStyle == s.caches.cscStyle
    ensures r.s.caches.hrText == s.caches.hrText
    ensures forall j :: 0 <= j < from ==> r.s.caches.fans[j] == s.caches.fans[j]
    ensures !MainShown(s) && s.power.state != SoftPowersave ==> r == Out(s, [])
    ensures MainShown(s) && s.screens.modalVisible ==> r.log == []
    decreases MAX_FANS - from
  {
    if from == MAX_FANS then Out(s, [])
    else
      var a := UpdateFan(s, from);
      var rest := UpdateFansFrom(a.s, from + 1);
      Out(rest.s, a.log + rest.log)
  }

  /** With the main screen up and the modal closed, the fan loop draws
      every stale fan from the store and leaves every cache fresh. */
  lemma {:induction false} FansRendered(s: System, from: nat)
    requires from <= MAX_FANS
    ensures var r := UpdateFansFrom(s, from);
      MainShown(s) && !s.screens.modalVisible ==>
        && r.s.screens == s.screens
        && (forall j :: from <= j < MAX_FANS && !FanFresh(s, j) ==>
              FanRendered(j, FanViewOf(s.store.fans[j])) in r.log)
        && (forall j :: from <= j < MAX_FANS ==> FanFresh(r.s, j))
    decreases MAX_FANS - from
  {
    if from < MAX_FANS && MainShown(s) && !s.screens.modalVisible {
      var a := UpdateFan(s, from);
      FansRendered(a.s, from + 1);
      var rest := UpdateFansFrom(a.s, from + 1);
      assert FanFresh(a.s, from);
      assert forall j :: from < j < MAX_FANS ==> FanFresh(a.s, j) == FanFresh(s, j);
      assert rest.s.caches.fans[from] == a.s.caches.fans[from];
    }
  }

  /** Update every widget in the order the firmware does: HR, CSC, fans. */
  function RenderAll(s: System): (r: Out)
    ensures RenderFrame(s, r.s)
    ensures MainShown(s) && s.screens.modalVisible ==> r.log == [] && r.s.screens.refreshPending
    ensures !MainShown(s) && s.power.state != SoftPowersave ==> r == Out(s, [])
    ensures s.caches.hrText.key == s.store.hr.value ==> r.s.caches.hrText == s.caches.hrText
  {
    var a := UpdateHr(s);
    var b := UpdateCsc(a.s);
    var c := UpdateFansFrom(b.s, 0);
    Out(c.s, a.log + b.log + c.log)
  }

  /** Forget the HR and fan caches (the CSC card has none). */
  function Invalidate(s: System): (r: System)
    ensures !HrFresh(r) && forall j :: 0 <= j < MAX_FANS ==> !FanFresh(r, j)
    ensures r.store == s.store && r.screens == s.screens && r.power == s.power && r.ps == s.ps
    ensures r.caches.hrText == s.caches.hrText && r.caches.cscText == s.caches.cscText
    ensures r.caches.cscStyle == s.caches.cscStyle
  {
    s.(caches := s.caches.(hr := s.caches.hr.(initialized := false), fans := COLD_FAN_CACHES))
  }

  /** `homewind_refresh_main_display`: invalidate, then update every widget. */
  function RefreshMainDisplay(s: System): (r: Out)
    ensures RenderFrame(s, r.s)
    ensures MainShown(s) && s.screens.modalVisible ==> r.log == [] && r.s.screens.refreshPending
    ensures !MainShown(s) && s.power.state != SoftPowersave ==> r.log == []
  {
    RenderAll(Invalidate(s))
  }

  /** The main screen is up, the modal closed and every dirty cache cold. */
  predicate ColdMain(s: System)
  {
    MainShown(s) && !s.screens.modalVisible && !HrFresh(s) && forall j :: 0 <= j < MAX_FANS ==> !FanFresh(s, j)
  }

  /** The HR and CSC steps of `RenderAll` on a cold main screen: HR is drawn
      first, CSC next, and the fan caches are still cold afterwards. */
  lemma CardsDrawn(s: System)
    ensures var a := UpdateHr(s);
      var b := UpdateCsc(a.s);
      ColdMain(s) ==>
        && b.s.screens == s.screens && b.s.store == s.store
        && |a.log| > 0 && a.log[0] == HrRendered(HrViewNow(s))
        && CscRendered(CscViewNow(s)) in b.log
        && HrFresh(b.s) && b.s.caches.cscStyle == Some(s.store.csc.state)
        && forall j :: 0 <= j < MAX_FANS ==> !FanFresh(b.s, j)
  {
    if ColdMain(s) {
      var a := UpdateHr(s);
      assert a.s.screens == s.screens && a.s.store == s.store;
      var b := UpdateCsc(a.s);
      assert CscViewNow(a.s) == CscViewNow(s);
      assert CscRendered(CscViewNow(s)) in b.log by {
        var k := if a.s.caches.cscStyle != Some(s.store.csc.state) then 1 else 0;
        assert b.log[k] == CscRendered(CscViewNow(a.s));
      }
      assert b.s.caches.fans == s.caches.fans;
      forall j | 0 <= j < MAX_FANS
        ensures !FanFresh(b.s, j)
      {
        assert !FanFresh(s, j);
      }
    }
  }

  /** On a cold main screen `RenderAll` draws HR first, then CSC, then every
      fan. */
  lemma RenderAllDraws(s: System)
    ensures var r := RenderAll(s);
      ColdMain(s) ==>
        && |r.log| > 0 && r.log[0] == HrRendered(HrViewNow(s))
        && CscRendered(CscViewNow(s)) in r.log
        && (forall j :: 0 <= j < MAX_FANS ==> FanRendered(j, FanViewOf(s.store.fans[j])) in r.log)
  {
    CardsFirst(s);
    FansAfterCards(s);
  }

  lemma CardsFirst(s: System)
    ensures var r := RenderAll(s);
      ColdMain(s) ==>
        && |r.log| > 0 && r.log[0] == HrRendered(HrViewNow(s))
        && CscRendered(CscViewNow(s)) in r.log
  {
    if ColdMain(s) {
      var a := UpdateHr(s);
      var b := UpdateCsc(a.s);
      CardsDrawn(s);
      InThree(a.log, b.log, UpdateFansFrom(b.s, 0).log);
    }
  }

  lemma FansAfterCards(s: System)
    ensures var r := RenderAll(s);
      ColdMain(s) ==> forall j :: 0 <= j < MAX_FANS ==> FanRendered(j, FanViewOf(s.store.fans[j])) in r.log
  {
    if ColdMain(s) {
      var a := UpdateHr(s);
      var b := UpdateCsc(a.s);
      CardsDrawn(s);
      var c := UpdateFansFrom(b.s, 0);
      FansRendered(b.s, 0);
      InThree(a.log, b.log, c.log);
    }
  }

  /** ... and leaves every cache fresh and the screens as they were. */
  lemma RenderAllFresh(s: System)
    ensures var r := RenderAll(s);
      ColdMain(s) ==>
        && r.s.screens == s.screens
        && HrFresh(r.s) && (forall j :: 0 <= j < MAX_FANS ==> FanFresh(r.s, j))
        && r.s.caches.cscStyle == Some(s.store.csc.state)
  {
    if ColdMain(s) {
      var a := UpdateHr(s);
      var b := UpdateCsc(a.s);
      CardsDrawn(s);
      FansRendered(b.s, 0);
    }
  }

  lemma InThree(a: seq<Event>, b: seq<Event>, c: seq<Event>)
    ensures |a| > 0 ==> (a + b + c)[0] == a[0]
    ensures forall e :: e in b ==> e in a + b + c
    ensures forall e :: e in c ==> e in a + b + c
  {
  }

  /** With the main screen up and the modal closed, a refresh draws every
      widget from the store, HR first, and leaves all caches fresh. */
  lemma RefreshRendersEverything(s: System)
    ensures var r := RefreshMainDisplay(s);
      MainShown(s) && !s.screens.modalVisible ==>
        && r.s.screens == s.screens
        && |r.log| > 0 && r.log[0] == HrRendered(HrViewNow(s))
        && CscRendered(CscViewNow(s)) in r.log
        && (forall j :: 0 <= j < MAX_FANS ==> FanRendered(j, FanViewOf(s.store.fans[j])) in r.log)
        && HrFresh(r.s) && (forall j :: 0 <= j < MAX_FANS ==> FanFresh(r.s, j))
        && r.s.caches.cscStyle == Some(s.store.csc.state)
  {
    var s0 := Invalidate(s);
    RenderAllDraws(s0);
    RenderAllFresh(s0);
    assert HrViewNow(s0) == HrViewNow(s) && CscViewNow(s0) == CscViewNow(s);
  }

  /** `animate_overlay_in`: the modal opens and any owed refresh is dropped. */
  function OpenOverlay(s: System): (r: Out)
    ensures r.s.screens.modalVisible && !r.s.screens.refreshPending && !r.s.screens.overlayHidden
    ensures r.s == s.(screens := r.s.screens) && r.s.screens.active == s.screens.active
    ensures r.log == [OverlayShown]
  {
    Out(s.(screens := s.screens.(modalVisible := true, refreshPending := false, overlayHidden := false)),
        [OverlayShown])
  }

  /** `anim_overlay_out_ready_cb`: the modal has slid out. If a render was
      skipped while it was open, every widget is redrawn. */
  function OverlayClosed(s: System): (r: Out)
    ensures !r.s.screens.modalVisible && r.s.screens.overlayHidden && !r.s.screens.refreshPending
    ensures r.s.store == s.store && r.s.power == s.power
    ensures |r.log| > 0 && r.log[0] == OverlayHidden
    ensures !s.screens.refreshPending ==> r.log == [OverlayHidden] && r.s.caches == s.caches
    ensures s.screens.refreshPending && MainShown(s) ==>
      && HrRendered(HrViewNow(s)) in r.log
      && CscRendered(CscViewNow(s)) in r.log
      && (forall j :: 0 <= j < MAX_FANS ==> FanRendered(j, FanViewOf(s.store.fans[j])) in r.log)
      && HrFresh(r.s) && (forall j :: 0 <= j < MAX_FANS ==> FanFresh(r.s, j))
  {
    var s1 := s.(screens := s.screens.(overlayHidden := true, modalVisible := false));
    if !s.screens.refreshPending then Out(s1, [OverlayHidden])
    else
      var s2 := s1.(screens := s1.screens.(refreshPending := false));
      var rr := RefreshMainDisplay(s2);
      RefreshRendersEverything(s2);
      assert HrViewNow(s2) == HrViewNow(s) && CscViewNow(s2) == CscViewNow(s);
      Out(rr.s, [OverlayHidden] + rr.log)
  }

  /** `homewind_hide_settings_overlay`: hides the overlay object only; the
      modal flags are left as they are. */
  function HideSettingsOverlay(s: System): (r: Out)
    ensures s.screens.created ==> r.s == s.(screens := s.screens.(overlayHidden := true)) && r.log == [OverlayHidden]
    ensures !s.screens.created ==> r == Out(s, [])
    ensures r.s.screens.modalVisible == s.screens.modalVisible
  {
    if s.screens.created then Out(s.(screens := s.screens.(overlayHidden := true)), [OverlayHidden])
    else Out(s, [])
  }

  /** `homewind_create_screens`: build the boot, AP and main screens, then
      show the boot screen. Building the HR value label formats the stored
      value outside the gate, which moves the HR number cache off its
      sentinel; the fan widgets reset every fan to not configured, and each
      widget runs its update once. */
  function CreateScreens(s: System): (r: Out)
    ensures r.s.screens.created && r.s.screens.active == Boot
    ensures r.s.store.fans == NO_FANS && r.s.power == s.power
    ensures |r.log| > 0 && r.log[|r.log| - 1] == LoadScreen(Boot)
    ensures r.s.caches.hrText.key == s.store.hr.value
    ensures Exact(s.caches.hrText, HrValueFormat) || s.caches.hrText.key != s.store.hr.value ==>
      Exact(r.s.caches.hrText, HrValueFormat)
  {
    var s1 := s.(screens := s.screens.(created := true, overlayHidden := true),
                 store := s.store.(fans := NO_FANS),
                 caches := s.caches.(hrText := HrText(s)));
    var a := RenderAll(s1);
    Out(a.s.(screens := a.s.screens.(active := Boot)), a.log + [LoadScreen(Boot)])
  }

  /** On a fresh device nothing is drawn while the screens are built: the
      default screen is up, so the gate skips every widget. */
  lemma CreateScreensAtBoot()
    ensures var r := CreateScreens(INITIAL);
      && r.log == [LoadScreen(Boot)]
      && r.s.caches == INITIAL.caches.(hrText := NumText(0, "--"))
      && !r.s.screens.modalVisible && r.s.screens.overlayHidden
  {
  }

  /** Building the screens at boot formats the HR value 0 into the HR
      number cache, so from then on every HR value, 0xFFFF included, is
      shown as its own text and never as the seed's "--". */
  lemma BootHrCacheIsExact(v: u16)
    ensures var c := CreateScreens(INITIAL).s.caches.hrText;
      Exact(c, HrValueFormat) && Lookup(c, HrValueFormat, v).text == Format(HrValueFormat, v)
  {
  }

  /** `homewind_show_main_screen`: load the main screen and redraw it. */
  function ShowMainScreen(s: System): (r: Out)
    ensures !s.screens.created ==> r == Out(s, [])
    ensures s.screens.created ==> r.s.screens.active == Main && |r.log| > 0 && r.log[0] == LoadScreen(Main)
    ensures s.screens.created && !s.screens.modalVisible ==>
      HrRendered(HrViewNow(s)) in r.log && HrFresh(r.s) && (forall j :: 0 <= j < MAX_FANS ==> FanFresh(r.s, j))
  {
    if !s.screens.created then Out(s, [])
    else
      var s1 := s.(screens := s.screens.(active := Main));
      var rr := RefreshMainDisplay(s1);
      RefreshRendersEverything(s1);
      assert HrViewNow(s1) == HrViewNow(s);
      Out(rr.s, [LoadScreen(Main)] + rr.log)
  }

  /** `homewind_show_ap_screen`. */
  function ShowApScreen(s: System): (r: Out)
    ensures s.screens.created ==> r.s == s.(screens := s.screens.(active := Ap)) && r.log == [LoadScreen(Ap)]
    ensures !s.screens.created ==> r == Out(s, [])
  {
    if s.screens.created then Out(s.(screens := s.screens.(active := Ap)), [LoadScreen(Ap)])
    else Out(s, [])
  }
}
