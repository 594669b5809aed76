/** Machine-level types shared by the firmware model: Rust's `i32` with its
    wrapping atomic arithmetic, `esp_timer_get_time` timestamps, GPIO
    levels and one-shot timers. */
module Machine {

  const I32_MIN: int := -0x8000_0000
  const I32_MAX: int := 0x7FFF_FFFF
  const I32_SPAN: int := 0x1_0000_0000

  /** Rust's `i32`. */
  type Int32 = x: int | I32_MIN <= x <= I32_MAX

  /** A microsecond timestamp or duration: a non-negative `i64`, as returned
      by `esp_timer_get_time` (time since boot). */
  type Micros = t: int | 0 <= t < 0x8000_0000_0000_0000

  /** Two's-complement wrap-around of an integer into `i32`, as done by
      `AtomicI32::fetch_add` and `fetch_sub`. */
  function WrapI32(x: int): (r: Int32)
    ensures (x - r) % I32_SPAN == 0
    ensures I32_MIN <= x <= I32_MAX ==> r == x
  {
    (x - I32_MIN) % I32_SPAN + I32_MIN
  }

  /** `WrapI32(x)` is the only `i32` congruent to `x`. */
  lemma WrapUnique(x: int, r: Int32)
    requires (x - r) % I32_SPAN == 0
    ensures WrapI32(x) == r
  {
    var w := WrapI32(x);
    var q1 := (x - r) / I32_SPAN;
    var q2 := (x - w) / I32_SPAN;
    assert x - r == q1 * I32_SPAN;
    assert x - w == q2 * I32_SPAN;
    assert w - r == (q1 - q2) * I32_SPAN;
  }

  /** Wrapping after every step is the same as wrapping once at the end. */
  lemma WrapAdd(x: int, d: int)
    ensures WrapI32(WrapI32(x) + d) == WrapI32(x + d)
  {
    var y := WrapI32(x);
    var r := WrapI32(x + d);
    var q1 := (x - y) / I32_SPAN;
    var q2 := (x + d - r) / I32_SPAN;
    assert x - y == q1 * I32_SPAN;
    assert x + d - r == q2 * I32_SPAN;
    assert (y + d) - r == (q2 - q1) * I32_SPAN;
    WrapUnique(y + d, r);
  }

  /** The level of a GPIO pin. */
  datatype Level = Low | High

  /** A one-shot `EspTimerService` timer: idle, or armed to fire after a delay. */
  datatype Timer = Idle | Armed(after: Micros)
}

/** An optional value. */
module Options {
  datatype Option<T> = None | Some(value: T)
}
