/** The texts and colours the widgets display, and the formatted-number
    caches behind them (src/homewind_ui.c, src/powersave.c). */
module Labels {
  import opened Ints
  import opened Wrappers
  import opened Text
  import opened State
  import Color

  /** The three ways the firmware prints a number: the main HR value
      (`get_hr_value_string`, "--" for 0), the cadence
      (`get_csc_cadence_string`, "<n> RPM") and the powersave labels
      (plain `%d`). */
  datatype NumFormat = HrValueFormat | CadenceFormat | PlainFormat

  const RPM_SUFFIX: string := " RPM"

  function Format(f: NumFormat, v: u16): string
  {
    match f
    case HrValueFormat => if v == 0 then "--" else Decimal(v)
    case CadenceFormat => Decimal(v) + RPM_SUFFIX
    case PlainFormat => Decimal(v)
  }

  /** Every format can be read back: the number is recoverable from its
      text, and the HR value's "--" stands for 0 and nothing else. */
  lemma FormatRoundTrip(f: NumFormat, v: u16)
    ensures f == HrValueFormat ==> (Format(f, v) == "--" <==> v == 0)
    ensures f == HrValueFormat && v != 0 ==> AllDigits(Format(f, v)) && DigitsValue(Format(f, v)) == v
    ensures f == PlainFormat ==> AllDigits(Format(f, v)) && DigitsValue(Format(f, v)) == v
    ensures f == CadenceFormat ==>
      var t := Format(f, v);
      && |t| > |RPM_SUFFIX|
      && t[|t| - |RPM_SUFFIX|..] == RPM_SUFFIX
      && AllDigits(t[..|t| - |RPM_SUFFIX|])
      && DigitsValue(t[..|t| - |RPM_SUFFIX|]) == v
  {
    DecimalRoundTrip(v);
    var d := Decimal(v);
    if f == HrValueFormat && v != 0 {
      assert d[0] != '-';
    }
    if f == CadenceFormat {
      var t := d + RPM_SUFFIX;
      assert t[..|t| - |RPM_SUFFIX|] == d;
      assert t[|t| - |RPM_SUFFIX|..] == RPM_SUFFIX;
    }
  }

  /** Distinct numbers print differently in every format. */
  lemma FormatInjective(f: NumFormat, a: u16, b: u16)
    ensures Format(f, a) == Format(f, b) <==> a == b
  {
    if Format(f, a) == Format(f, b) {
      FormatRoundTrip(f, a);
      FormatRoundTrip(f, b);
      if f == CadenceFormat {
        var ta := Format(f, a);
        assert ta[..|ta| - |RPM_SUFFIX|] == Format(f, b)[..|Format(f, b)| - |RPM_SUFFIX|];
      }
    }
  }

  /** The key the HR value cache and the two powersave number caches are
      seeded with (the main cadence cache is seeded with 0 and "0 RPM"). */
  const SENTINEL: u16 := 0xFFFF

  /** A number cache holds the formatted text of its key, except possibly
      while it still holds the sentinel key it was seeded with. */
  predicate Sound(c: NumText, f: NumFormat)
  {
    c.key != SENTINEL ==> c.text == Format(f, c.key)
  }

  /** A number cache whose text is its key's formatted text, sentinel or
      not: once a cache has been looked up with any other key it stays so. */
  predicate Exact(c: NumText, f: NumFormat)
  {
    c.text == Format(f, c.key)
  }

  /** The cache lookup every formatter performs: reformat only when the
      value differs from the cached key. The text shown is `r.text`. */
  function Lookup(c: NumText, f: NumFormat, v: u16): (r: NumText)
    ensures r.key == v
    ensures v == c.key ==> r == c
    ensures Sound(c, f) ==> Sound(r, f)
    ensures Sound(c, f) && v != SENTINEL ==> r.text == Format(f, v)
    ensures c.key != v ==> r.text == Format(f, v)
    ensures Exact(c, f) || c.key != v ==> Exact(r, f)
  {
    if v != c.key then NumText(v, Format(f, v)) else c
  }

  /** The seeding quirk: while a cache still holds its sentinel, the value
      0xFFFF prints as the seed text "--" rather than "65535". */
  lemma SentinelPrintsSeed()
    ensures Lookup(NumText(SENTINEL, "--"), PlainFormat, SENTINEL).text == "--"
    ensures Format(PlainFormat, SENTINEL) != "--"
  {
    assert Format(PlainFormat, SENTINEL)[0] != '-';
  }

  /** The powersave fan slot: "--" with no configured fan, else "on/total". */
  function FanSummaryText(active: u8, total: u8): (t: string)
  {
    if total == 0 then "--" else Decimal(active) + "/" + Decimal(total)
  }

  /** Both counts can be read back from a non-empty fan summary, and "--"
      appears exactly when no fan is configured. */
  lemma FanSummaryRoundTrip(active: u8, total: u8)
    ensures FanSummaryText(active, total) == "--" <==> total == 0
    ensures total > 0 ==>
      var t := FanSummaryText(active, total);
      var k := |Decimal(active)|;
      && k < |t| && t[k] == '/'
      && AllDigits(t[..k]) && DigitsValue(t[..k]) == active
      && AllDigits(t[k + 1..]) && DigitsValue(t[k + 1..]) == total
  {
    if total > 0 {
      var t := FanSummaryText(active, total);
      var k := |Decimal(active)|;
      assert t[..k] == Decimal(active);
      assert t[k + 1..] == Decimal(total);
      assert t[0] != '-';
      DecimalRoundTrip(active);
      DecimalRoundTrip(total);
    }
  }

  const NOT_CONNECTED: string := "Not Connected"
  const NOT_CONFIGURED: string := "Not Configured"

  /** The HR caption of a configured sensor that is not connected. */
  function HrInactiveCaption(name: string): (r: string)
  {
    if |name| > 0 then name + "\n" + NOT_CONNECTED else NOT_CONNECTED
  }

  /** The caption always ends in "Not Connected", and different names give
      different captions: the name is recoverable. */
  lemma HrInactiveCaptionInjective(a: string, b: string)
    ensures |HrInactiveCaption(a)| >= |NOT_CONNECTED|
    ensures HrInactiveCaption(a)[|HrInactiveCaption(a)| - |NOT_CONNECTED|..] == NOT_CONNECTED
    ensures HrInactiveCaption(a) == HrInactiveCaption(b) <==> a == b
  {
    var ca := HrInactiveCaption(a);
    var cb := HrInactiveCaption(b);
    if |a| > 0 {
      assert ca[|ca| - |NOT_CONNECTED|..] == NOT_CONNECTED;
    }
    if ca == cb && |a| > 0 && |b| > 0 {
      assert a == ca[..|a|];
      assert b == cb[..|b|];
    }
  }

  /** The HR card for a sensor in state `st`; `valueText` is the formatted
      value, used only when connected. */
  function HrViewOf(st: HrState, name: string, valueText: string): (v: HrView)
    ensures v.HrReading? <==> st == HrActive
    ensures st == HrActive ==> v.value == valueText && v.caption == name
    ensures st == HrNotConfigured ==> v == HrDisconnected(NOT_CONFIGURED)
  {
    match st
    case HrActive => HrReading(valueText, name)
    case HrInactive => HrDisconnected(HrInactiveCaption(name))
    case HrNotConfigured => HrDisconnected(NOT_CONFIGURED)
  }

  /** The CSC status line: fixed texts when not connected, the cadence text
      when connected. */
  function CscStatus(st: CscState, cadenceText: string): (r: string)
  {
    match st
    case CscNotConfigured => NOT_CONFIGURED
    case CscInactive => NOT_CONNECTED
    case CscActive => cadenceText
  }

  /** The status line tells the three states apart: a connected sensor's
      line is a cadence, which starts with a digit. */
  lemma CscStatusDistinguishes(st: CscState, v: u16)
    ensures var r := CscStatus(st, Format(CadenceFormat, v));
      && (st == CscActive <==> IsDigit(r[0]))
      && (st == CscInactive <==> r == NOT_CONNECTED)
      && (st == CscNotConfigured <==> r == NOT_CONFIGURED)
  {
    assert IsDigit(Format(CadenceFormat, v)[0]);
    assert NOT_CONNECTED != NOT_CONFIGURED by {
      assert |NOT_CONNECTED| != |NOT_CONFIGURED|;
    }
  }

  /** How `update_fan_item` draws a fan: ACTIVE and off looks like INACTIVE. */
  function FanViewOf(f: Fan): (v: FanView)
  {
    match f.state
    case FanNotConfigured => PillUnconfigured
    case FanActive => if f.isOn then PillOn else PillOff
    case FanInactive => PillOff
    case FanError => PillError
  }

  /** The pill's background colour for each look. */
  function PillColor(v: FanView): Color.Rgb
  {
    match v
    case PillUnconfigured => Color.COLOR_FAN_UNCONFIGURED
    case PillOn => Color.COLOR_FAN_ACTIVE_ON
    case PillOff => Color.COLOR_WHITE
    case PillError => Color.COLOR_ACCENT
  }

  /** `animate_fan_toggle`'s end colour, `None` where it starts no
      animation (not configured, error). */
  function AnimEndColor(f: Fan): (c: Option<Color.Rgb>)
  {
    match f.state
    case FanActive => Some(if f.isOn then Color.COLOR_FAN_ACTIVE_ON else Color.COLOR_WHITE)
    case FanInactive => Some(Color.COLOR_WHITE)
    case _ => None
  }

  /** The toggle animation ends on exactly the colour `update_fan_item`
      paints for the same fan, and it runs exactly for the fans whose pill
      shows an on/off look. */
  lemma AnimEndsOnPillColor(f: Fan)
    ensures AnimEndColor(f).Some? <==> FanViewOf(f) in {PillOn, PillOff}
    ensures AnimEndColor(f).Some? ==> AnimEndColor(f).value == PillColor(FanViewOf(f))
  {
  }
}
