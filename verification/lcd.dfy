/** Pure pieces of the display board support code (src/lcd_bsp.c): the
    flush-area rounder, the clamp on the render task's sleep, and the
    rate-limited touch read callback. */
module Lcd {
  import opened Ints
  import Touch

  /** An invalidated area, inclusive corners, as the rounder sees them after
      its casts to `uint16_t`. */
  datatype Area = Area(x1: u16, y1: u16, x2: u16, y2: u16)

  /** `(v >> 1) << 1`: clear the lowest bit. */
  function Even(v: u16): (r: u16)
    ensures r % 2 == 0 && r <= v && v - r <= 1
  {
    v - v % 2
  }

  /** `example_lvgl_rounder_cb`: start corners down to even, end corners up
      to odd, as the panel transfers pixel pairs. */
  function Round(a: Area): (r: Area)
    ensures r.x1 % 2 == 0 && r.y1 % 2 == 0
    ensures r.x2 % 2 == 1 && r.y2 % 2 == 1
    ensures r.x1 <= a.x1 && r.y1 <= a.y1 && a.x2 <= r.x2 && a.y2 <= r.y2
    ensures a.x1 - r.x1 <= 1 && a.y1 - r.y1 <= 1 && r.x2 - a.x2 <= 1 && r.y2 - a.y2 <= 1
  {
    Area(Even(a.x1), Even(a.y1), Even(a.x2) + 1, Even(a.y2) + 1)
  }

  /** A rounded area spans an even number of columns and rows whenever it is
      non-empty, and rounding it again changes nothing. */
  lemma RoundProperties(a: Area)
    requires a.x1 <= a.x2 && a.y1 <= a.y2
    ensures var r := Round(a);
      && (r.x2 - r.x1 + 1) % 2 == 0 && (r.y2 - r.y1 + 1) % 2 == 0
      && Round(r) == r
  {
  }

  /** Rounding is the smallest aligned cover: any area with even start
      corners and odd end corners that contains `a` contains `Round(a)`. */
  lemma RoundIsTightest(a: Area, b: Area)
    requires b.x1 % 2 == 0 && b.y1 % 2 == 0 && b.x2 % 2 == 1 && b.y2 % 2 == 1
    requires b.x1 <= a.x1 && b.y1 <= a.y1 && a.x2 <= b.x2 && a.y2 <= b.y2
    ensures var r := Round(a); b.x1 <= r.x1 && b.y1 <= r.y1 && r.x2 <= b.x2 && r.y2 <= b.y2
  {
  }

  const TASK_MAX_DELAY_MS: int := 200
  const TASK_MIN_DELAY_MS: int := 5

  /** The render task's sleep after `lv_timer_handler` asked for `d` ms. */
  function TaskDelay(d: u32): (r: u32)
    ensures TASK_MIN_DELAY_MS <= r <= TASK_MAX_DELAY_MS
    ensures TASK_MIN_DELAY_MS <= d <= TASK_MAX_DELAY_MS ==> r == d
    ensures d > TASK_MAX_DELAY_MS ==> r == TASK_MAX_DELAY_MS
    ensures d < TASK_MIN_DELAY_MS ==> r == TASK_MIN_DELAY_MS
  {
    if d > TASK_MAX_DELAY_MS then TASK_MAX_DELAY_MS
    else if d < TASK_MIN_DELAY_MS then TASK_MIN_DELAY_MS
    else d
  }

  /** Calls answered from the cache between two hardware polls. */
  const TOUCH_POLL_SKIP_COUNT: int := 2

  /** The callback's statics: the skip counter and the last point and state. */
  datatype Poller = Poller(counter: u8, lastX: u16, lastY: u16, pressed: bool)

  const INITIAL_POLLER: Poller := Poller(0, 0, 0, false)

  /** What the callback reports to the input layer. */
  datatype Reading = Reading(x: u16, y: u16, pressed: bool)

  /** What the controller would answer if polled: the status byte and the
      four point registers. */
  datatype Controller = Controller(status: u8, point: seq<u8>)

  datatype PollStep = PollStep(next: Poller, reading: Reading, polled: bool)

  /** `example_lvgl_touch_cb`. The controller is read only when `polled`. */
  function TouchRead(p: Poller, c: Controller): (r: PollStep)
    requires p.counter <= TOUCH_POLL_SKIP_COUNT
    requires |c.point| == 4
    ensures r.next.counter <= TOUCH_POLL_SKIP_COUNT
    ensures r.polled <==> p.counter == TOUCH_POLL_SKIP_COUNT
    ensures r.polled ==> r.next.counter == 0
    ensures !r.polled ==> r.next == p.(counter := p.counter + 1)
    ensures r.reading == Reading(r.next.lastX, r.next.lastY, r.next.pressed)
    ensures r.polled ==> (r.next.pressed <==> c.status != 0)
    ensures !r.next.pressed ==> r.next.lastX == p.lastX && r.next.lastY == p.lastY
    ensures r.polled && c.status != 0 ==>
      var t := Touch.GetTouch(c.status, c.point, 0, 0); r.reading == Reading(t.x, t.y, true)
    ensures r.polled && c.status != 0 ==>
      var dx := Touch.DecodeCoord(c.point[0], c.point[1]);
      var dy := Touch.DecodeCoord(c.point[2], c.point[3]);
      && r.reading.x as int == (if dx <= Touch.H_RES as int then dx else Touch.H_RES as int)
      && r.reading.y as int == (if dy <= Touch.V_RES as int then dy else Touch.V_RES as int)
  {
    if p.counter + 1 <= TOUCH_POLL_SKIP_COUNT then
      var q := p.(counter := p.counter + 1);
      PollStep(q, Reading(q.lastX, q.lastY, q.pressed), false)
    else
      // tp_x and tp_y are read only when the controller reports a touch
      var t := Touch.GetTouch(c.status, c.point, 0, 0);
      var q := if t.touched != 0 then Poller(0, t.x, t.y, true) else p.(counter := 0, pressed := false);
      PollStep(q, Reading(q.lastX, q.lastY, q.pressed), true)
  }

  /** The poll flags of a run of callbacks. */
  function PollRun(p: Poller, cs: seq<Controller>): (flags: seq<bool>)
    requires p.counter <= TOUCH_POLL_SKIP_COUNT
    requires forall i :: 0 <= i < |cs| ==> |cs[i].point| == 4
    ensures |flags| == |cs|
    decreases |cs|
  {
    if |cs| == 0 then []
    else
      var st := TouchRead(p, cs[0]);
      [st.polled] + PollRun(st.next, cs[1..])
  }

  /** From any counter value, call `i` polls the hardware exactly when
      `i + counter + 1` is a multiple of three: from a fresh start, every
      third call. */
  lemma {:induction false} PollEveryThird(p: Poller, cs: seq<Controller>)
    requires p.counter <= TOUCH_POLL_SKIP_COUNT
    requires forall i :: 0 <= i < |cs| ==> |cs[i].point| == 4
    ensures forall i :: 0 <= i < |cs| ==> (PollRun(p, cs)[i] <==> (i + p.counter + 1) % 3 == 0)
    decreases |cs|
  {
    if |cs| > 0 {
      var st := TouchRead(p, cs[0]);
      PollEveryThird(st.next, cs[1..]);
      var flags := PollRun(p, cs);
      forall i | 0 <= i < |cs|
        ensures flags[i] <==> (i + p.counter + 1) % 3 == 0
      {
        if i > 0 {
          assert flags[i] == PollRun(st.next, cs[1..])[i - 1];
          assert (i - 1 + st.next.counter + 1) % 3 == (i + p.counter + 1) % 3;
        }
      }
    }
  }
}
