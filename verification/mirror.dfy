/** The powersave screen's mirror of the sensor summary,
    `update_powersave_icons` (src/powersave.c:483-590). */
module Mirror {
  import opened Ints
  import opened Text
  import opened State
  import opened Labels

  /** What a powersave number label should read: the value while the
      sensor is connected, "--" otherwise. */
  function PsNumberLabel(connected: bool, v: u16): string
  {
    if connected then Format(PlainFormat, v) else "--"
  }

  /** The three labels read what summary `m` says. */
  predicate ShowsSummary(ps: PsScreen, m: Summary)
  {
    && ps.hrLabel == PsNumberLabel(m.hrState == HrActive, m.hrValue)
    && ps.cscLabel == PsNumberLabel(m.cscState == CscActive, m.cscValue)
    && ps.fanLabel == FanSummaryText(m.fanActive, m.fanTotal)
  }

  /** What the mirror is meant to guarantee: once it holds a summary, the
      labels read that summary; and its number caches are sound. */
  predicate Faithful(ps: PsScreen)
  {
    && Sound(ps.hrText, PlainFormat)
    && Sound(ps.cscText, PlainFormat)
    && (ps.mirrored ==> ShowsSummary(ps, ps.mirror))
  }

  /** Whether a call draws anything: the screen exists, and either the
      device is in soft powersave or the mirror is still empty. */
  predicate Renders(ps: PsScreen, power: PowerState)
  {
    ps.created && (power == SoftPowersave || !ps.mirrored)
  }

  predicate HrChanged(ps: PsScreen, m: Summary)
  {
    !ps.mirrored || m.hrState != ps.mirror.hrState || m.hrValue != ps.mirror.hrValue
  }

  predicate CscChanged(ps: PsScreen, m: Summary)
  {
    !ps.mirrored || m.cscState != ps.mirror.cscState || m.cscValue != ps.mirror.cscValue
  }

  /** One number slot after a redraw decision: its number cache, its label
      and the render it emitted. */
  datatype Slot = Slot(text: NumText, shown: string, log: seq<Event>)

  function HrSlot(ps: PsScreen, m: Summary): Slot
  {
    if !HrChanged(ps, m) then Slot(ps.hrText, ps.hrLabel, [])
    else if m.hrState == HrActive then
      var c := Lookup(ps.hrText, PlainFormat, m.hrValue);
      Slot(c, c.text, [PsHrRendered(true, c.text)])
    else Slot(ps.hrText, "--", [PsHrRendered(false, "--")])
  }

  function CscSlot(ps: PsScreen, m: Summary): Slot
  {
    if !CscChanged(ps, m) then Slot(ps.cscText, ps.cscLabel, [])
    else if m.cscState == CscActive then
      var c := Lookup(ps.cscText, PlainFormat, m.cscValue);
      Slot(c, c.text, [PsCscRendered(true, c.text)])
    else Slot(ps.cscText, "--", [PsCscRendered(false, "--")])
  }

  datatype PsOut = PsOut(ps: PsScreen, log: seq<Event>)

  /** `update_powersave_icons(hr_state, csc_state, hr_value, csc_value,
      fan_active, fan_total)` with its arguments as the summary `m`. */
  function UpdateIcons(ps: PsScreen, power: PowerState, m: Summary): (r: PsOut)
    ensures !ps.created ==> r == PsOut(ps, [])
    ensures ps.created ==> r.ps.created && r.ps.mirrored && r.ps.mirror == m
    ensures ps.created && !Renders(ps, power) ==> r.log == [] && r.ps == ps.(mirror := m)
    ensures forall i :: 0 <= i < |r.log| ==> r.log[i].PsRender()
    ensures Renders(ps, power) ==>
      var n := |r.log|;
      && n == (if HrChanged(ps, m) then 1 else 0) + (if CscChanged(ps, m) then 1 else 0) + 1
      && r.log[n - 1] == PsFanRendered(m.fanTotal > 0 && m.fanActive > 0, r.ps.fanLabel)
      && r.ps.fanLabel == FanSummaryText(m.fanActive, m.fanTotal)
      && (HrChanged(ps, m) ==> r.log[0] == PsHrRendered(m.hrState == HrActive, r.ps.hrLabel))
      && (!HrChanged(ps, m) ==> r.ps.hrLabel == ps.hrLabel && r.ps.hrText == ps.hrText)
      && (CscChanged(ps, m) ==> r.log[n - 2] == PsCscRendered(m.cscState == CscActive, r.ps.cscLabel))
      && (!CscChanged(ps, m) ==> r.ps.cscLabel == ps.cscLabel && r.ps.cscText == ps.cscText)
  {
    if !ps.created then PsOut(ps, [])
    else if !Renders(ps, power) then PsOut(ps.(mirror := m), [])
    else
      var hr := HrSlot(ps, m);
      var csc := CscSlot(ps, m);
      var fanText := FanSummaryText(m.fanActive, m.fanTotal);
      var ps' := ps.(mirrored := true, mirror := m, hrText := hr.text, cscText := csc.text,
                     hrLabel := hr.shown, cscLabel := csc.shown, fanLabel := fanText);
      PsOut(ps', hr.log + csc.log + [PsFanRendered(m.fanTotal > 0 && m.fanActive > 0, fanText)])
  }

  /** A drawing call keeps the mirror faithful: afterwards the labels read
      the new summary. (A value of 0xFFFF would print as the cache's seed
      text, see `Labels.SentinelPrintsSeed`.) */
  lemma RenderKeepsFaithful(ps: PsScreen, power: PowerState, m: Summary)
    requires Faithful(ps) && Renders(ps, power)
    requires m.hrValue != SENTINEL && m.cscValue != SENTINEL
    ensures var r := UpdateIcons(ps, power, m); Faithful(r.ps) && ShowsSummary(r.ps, m)
  {
  }

  /** Outside soft powersave an initialised mirror is overwritten without
      drawing; when the device then enters soft powersave with the same
      summary, nothing looks changed and the HR label keeps showing the
      value from before. The fan slot, redrawn on every drawing call, is
      right. */
  lemma StaleLabelAfterReentry(ps: PsScreen, power: PowerState, m: Summary)
    requires Faithful(ps) && ps.created && ps.mirrored && power != SoftPowersave
    requires ps.mirror.hrState == HrActive && m.hrState == HrActive
    requires m.hrValue != ps.mirror.hrValue
    ensures var quiet := UpdateIcons(ps, power, m);
      var entered := UpdateIcons(quiet.ps, SoftPowersave, m);
      && quiet.log == []
      && entered.ps.hrLabel == ps.hrLabel
      && entered.ps.hrLabel != PsNumberLabel(true, m.hrValue)
      && !ShowsSummary(entered.ps, m)
      && entered.ps.fanLabel == FanSummaryText(m.fanActive, m.fanTotal)
  {
    FormatInjective(PlainFormat, m.hrValue, ps.mirror.hrValue);
  }
}
