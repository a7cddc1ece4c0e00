/** The FT3168 capacitive touch controller (src/FT3168.cpp): decoding a
    touch point from its registers and framing an I2C register write. Bus
    transfers are left to the caller: the bytes the controller returned are
    parameters. */
module Touch {
  import opened Ints
  import opened Wrappers

  /** Panel resolution (src/lcd_config.h). */
  const H_RES: int := 280
  const V_RES: int := 456

  /** Register map used by `getTouch`. */
  const REG_STATUS: u8 := 0x02
  const REG_POINT: u8 := 0x03

  /** A 12-bit coordinate, `((hi & 0x0f) << 8) | lo`: the low nibble of the
      high register above the eight bits of the low register. */
  function DecodeCoord(hi: u8, lo: u8): (v: int)
    ensures 0 <= v < 0x1000
    ensures v % 256 == lo && v / 256 == hi % 16
  {
    (hi % 16) * 256 + lo
  }

  /** The register pair a controller reports for coordinate `v`; the high
      nibble of the first byte carries event flags and is ignored. */
  function EncodeCoord(v: int, flags: int): (regs: (u8, u8))
    requires 0 <= v < 0x1000 && 0 <= flags < 16
  {
    (flags * 16 + v / 256, v % 256)
  }

  /** Decoding inverts encoding, whatever the flag nibble holds. */
  lemma CoordRoundTrip(v: int, flags: int)
    requires 0 <= v < 0x1000 && 0 <= flags < 16
    ensures var regs := EncodeCoord(v, flags); DecodeCoord(regs.0, regs.1) == v
  {
  }

  /** The `if (*x > RES) *x = RES` clamp: a value equal to the resolution
      passes unchanged. */
  function ClampCoord(v: int, res: int): (r: int)
  {
    if v > res then res else v
  }

  /** Result of `getTouch`: its return value and the two out-parameters. */
  datatype TouchResult = TouchResult(touched: u8, x: u16, y: u16)

  /** `getTouch`: `status` is the byte read from register 0x02 and `point`
      the four bytes from register 0x03; `x` and `y` are the caller's
      variables before the call. */
  function GetTouch(status: u8, point: seq<u8>, x: u16, y: u16): (r: TouchResult)
    requires |point| == 4
    ensures status == 0 ==> r == TouchResult(0, x, y)
    ensures status != 0 ==> r.touched == 1
    ensures status != 0 ==> r.x <= H_RES && r.y <= V_RES
    ensures status != 0 && DecodeCoord(point[0], point[1]) <= H_RES ==> r.x == DecodeCoord(point[0], point[1])
    ensures status != 0 && DecodeCoord(point[2], point[3]) <= V_RES ==> r.y == DecodeCoord(point[2], point[3])
    ensures status != 0 && DecodeCoord(point[0], point[1]) > H_RES ==> r.x == H_RES
    ensures status != 0 && DecodeCoord(point[2], point[3]) > V_RES ==> r.y == V_RES
  {
    if status != 0 then
      TouchResult(1, ClampCoord(DecodeCoord(point[0], point[1]), H_RES),
                     ClampCoord(DecodeCoord(point[2], point[3]), V_RES))
    else TouchResult(0, x, y)
  }

  /** A touch inside the panel survives the controller round trip exactly. */
  lemma TouchInsidePanel(px: int, py: int, fx: int, fy: int, x: u16, y: u16)
    requires 0 <= px <= H_RES && 0 <= py <= V_RES && 0 <= fx < 16 && 0 <= fy < 16
    ensures var rx := EncodeCoord(px, fx); var ry := EncodeCoord(py, fy);
            GetTouch(1, [rx.0, rx.1, ry.0, ry.1], x, y) == TouchResult(1, px, py)
  {
    CoordRoundTrip(px, fx);
    CoordRoundTrip(py, fy);
  }

  /** Payload capacity of one register write. */
  const I2C_WRITE_MAX_LEN: int := 32

  /** The message `I2C_writr_buff` hands to the bus: the bytes sent, in
      order, and whether the payload was copied from the caller. */
  datatype Frame = Frame(bytes: seq<u8>, copied: bool)

  /** `I2C_writr_buff(addr, reg, buf, len)`. `buf` is `None` for a NULL
      pointer; `stale` is what the 32 payload bytes of the stack buffer held
      before the call, which is what goes out when nothing is copied. */
  function WriteFrame(reg: u8, buf: Option<seq<u8>>, len: u8, stale: seq<u8>): (f: Frame)
    requires |stale| == I2C_WRITE_MAX_LEN
    requires buf.Some? ==> |buf.value| >= (if len > I2C_WRITE_MAX_LEN then I2C_WRITE_MAX_LEN else len)
    ensures var n := if len > I2C_WRITE_MAX_LEN then I2C_WRITE_MAX_LEN else len;
      && |f.bytes| == n + 1
      && f.bytes[0] == reg
      && (f.copied <==> n > 0 && buf.Some?)
      && (f.copied ==> f.bytes[1..] == buf.value[..n])
      && (!f.copied ==> f.bytes[1..] == stale[..n])
  {
    var n := if len > I2C_WRITE_MAX_LEN then I2C_WRITE_MAX_LEN else len;
    if n > 0 && buf.Some? then Frame([reg] + buf.value[..n], true)
    else Frame([reg] + stale[..n], false)
  }

  /** `Touch_Init` switches the controller to normal mode by writing 0x00
      to register 0x00: a two-byte frame. */
  lemma NormalModeFrame(stale: seq<u8>)
    requires |stale| == I2C_WRITE_MAX_LEN
    ensures WriteFrame(0x00, Some([0x00]), 1, stale) == Frame([0x00, 0x00], true)
  {
  }
}
