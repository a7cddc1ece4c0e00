/** 24-bit colours and the fan pill's background cross-fade
    (`fan_bg_color_anim_cb`, src/homewind_ui.c). */
module Color {
  import opened Ints

  /** Colour tokens of src/ui_colors.h, as 0xRRGGBB. */
  const COLOR_ACCENT: int := 0xF00F66
  const COLOR_CSC: int := 0x25ADD3
  const COLOR_WHITE: int := 0xFFFFFF
  const COLOR_FAN_UNCONFIGURED: int := 0x303132
  const COLOR_TEXT_DARK: int := 0x516682
  const COLOR_SUCCESS_ICON: int := 0x25C46B
  const COLOR_FAN_ACTIVE_ON: int := 0x06BB60
  const COLOR_DISCONNECTED: int := 0x999999

  type Rgb = c: int | 0 <= c < 0x100_0000

  /** Interpolation steps of the cross-fade. */
  const FAN_ANIM_RESOLUTION: int := 1024

  /** The three 8-bit channels, `(c >> 16) & 0xFF`, `(c >> 8) & 0xFF`, `c & 0xFF`. */
  function Red(c: Rgb): u8 { (c / 0x1_0000) % 0x100 }
  function Green(c: Rgb): u8 { (c / 0x100) % 0x100 }
  function Blue(c: Rgb): u8 { c % 0x100 }

  /** `lv_color_make(r, g, b)` as 0xRRGGBB. */
  function Pack(r: u8, g: u8, b: u8): (c: Rgb)
    ensures Red(c) == r && Green(c) == g && Blue(c) == b
  {
    var c := r * 0x1_0000 + g * 0x100 + b;
    assert c / 0x1_0000 == r;
    assert c / 0x100 == r * 0x100 + g;
    assert (r * 0x100 + g) % 0x100 == g;
    c
  }

  /** Splitting a colour into channels and packing them again is lossless. */
  lemma PackChannels(c: Rgb)
    ensures Pack(Red(c), Green(c), Blue(c)) == c
  {
    var hi := c / 0x1_0000;
    var rem := c % 0x1_0000;
    assert c == hi * 0x1_0000 + rem;
    assert Red(c) == hi;
    var mid := rem / 0x100;
    assert rem == mid * 0x100 + rem % 0x100;
    assert c / 0x100 == hi * 0x100 + mid;
    assert Green(c) == mid;
    assert c % 0x100 == rem % 0x100;
  }

  /** `a / FAN_ANIM_RESOLUTION` in C's signed arithmetic, which truncates
      toward zero (Dafny's `/` is Euclidean and rounds negative quotients
      down). */
  function DivRes(a: int): (q: int)
    ensures a >= 0 ==> 0 <= q * 1024 <= a < q * 1024 + 1024
    ensures a < 0 ==> q * 1024 - 1024 < a <= q * 1024 <= 0
  {
    if a >= 0 then a / 1024 else -((-a) / 1024)
  }

  /** One channel of the cross-fade: `s + ((e - s) * v) / 1024` with C's
      truncating division, clamped to a byte. `v` is the animation value;
      the product must fit the `int32_t` it is computed in. */
  function Mix(s: u8, e: u8, v: int): (r: u8)
    requires -8_000_000 <= v <= 8_000_000
    ensures v == 0 ==> r == s
    ensures v == FAN_ANIM_RESOLUTION ==> r == e
    ensures 0 <= v <= FAN_ANIM_RESOLUTION ==> (s <= r <= e || e <= r <= s)
  {
    var x := s + DivRes((e - s) * v);
    MixBetween(s, e, v);
    if x < 0 then 0 else if x > 255 then 255 else x
  }

  lemma MixBetween(s: u8, e: u8, v: int)
    requires -8_000_000 <= v <= 8_000_000
    ensures var q := DivRes((e - s) * v);
      && (v == 0 ==> q == 0)
      && (v == FAN_ANIM_RESOLUTION ==> q == e - s)
      && (0 <= v <= FAN_ANIM_RESOLUTION ==> (0 <= q <= e - s || e - s <= q <= 0))
  {
    var d := e - s;
    var q := DivRes(d * v);
    if v == FAN_ANIM_RESOLUTION {
      assert d * v == d * 1024;
      if d >= 0 {
        assert (d * 1024) / 1024 == d;
      } else {
        assert (-(d * 1024)) / 1024 == -d;
      }
    }
    if 0 <= v <= FAN_ANIM_RESOLUTION {
      if d >= 0 {
        MulMono(d, v, d, 1024);
      } else {
        MulMono(-d, v, -d, 1024);
        assert (-d) * v == -(d * v);
      }
    }
  }

  /** `fan_bg_color_anim_cb`: the pill colour at animation value `v`. */
  function Interpolate(start: Rgb, end: Rgb, v: int): (c: Rgb)
    requires -8_000_000 <= v <= 8_000_000
    ensures v == 0 ==> c == start
    ensures v == FAN_ANIM_RESOLUTION ==> c == end
  {
    PackChannels(start);
    PackChannels(end);
    Pack(Mix(Red(start), Red(end), v), Mix(Green(start), Green(end), v), Mix(Blue(start), Blue(end), v))
  }

  /** Along the animation every channel stays between its start and end. */
  lemma InterpolateBetween(start: Rgb, end: Rgb, v: int)
    requires 0 <= v <= FAN_ANIM_RESOLUTION
    ensures var c := Interpolate(start, end, v);
      && (Red(start) <= Red(c) <= Red(end) || Red(end) <= Red(c) <= Red(start))
      && (Green(start) <= Green(c) <= Green(end) || Green(end) <= Green(c) <= Green(start))
      && (Blue(start) <= Blue(c) <= Blue(end) || Blue(end) <= Blue(c) <= Blue(start))
  {
  }
}
