/**
 * The fade renderer's arithmetic and its LED write trace: one triangular
 * brightness ramp over a bitmask-selected subset of the three channels.
 */
module Fade {
  import opened Ints

  const LedCount: nat := 3
  const BrightnessMax: nat := 100
  const StepPeriodMs: nat := 10

  /** One call into the LED driver: `led_set_brightness` or `led_off`. */
  datatype LedOp = SetBrightness(channel: nat, level: nat) | Off(channel: nat)

  /** Channel `i` takes part in a render exactly when bit `i` of the 8-bit mask is set. */
  predicate Selected(mask: bv8, i: nat)
    requires i < LedCount
  {
    (mask & (1 << i)) != 0
  }

  /** Half a render in step periods: `duration / 2 / PWM_STEP_PERIOD_MS`. */
  function Steps(duration: uint16): nat
  {
    duration / 2 / StepPeriodMs
  }

  /** Number of step boundaries of a full render: `steps + 1` going up, `steps` coming down. */
  function Total(steps: nat): nat
  {
    2 * steps + 1
  }

  lemma {:induction false} DivMonotone(a: nat, b: nat, d: nat)
    requires a <= b && 0 < d
    ensures a / d <= b / d
  {
    if a / d > b / d {
      calc {
        a;
      >= d * (a / d);
      >= { assert a / d >= b / d + 1; }
        d * (b / d + 1);
      ==
        d * (b / d) + d;
      >  b;
      }
    }
  }

  /** A quotient below `m`: `a < d * m` keeps `a / d` under `m`. */
  lemma {:induction false} QuotientBelow(a: nat, d: nat, m: nat)
    requires 0 < d && a < d * m
    ensures a / d < m
  {
  }

  /** A quotient of at least `m`: `d * m <= a` lifts `a / d` to `m`. */
  lemma {:induction false} QuotientAtLeast(a: nat, d: nat, m: nat)
    requires 0 < d && d * m <= a
    ensures m <= a / d
  {
    var q := a / d;
    assert a < d * (q + 1);
    MulMonotone(d, q + 1, m);
  }

  /** Multiplying by a natural number keeps the order. */
  lemma {:induction false} MulMonotone(d: nat, x: nat, y: nat)
    ensures x <= y ==> d * x <= d * y
  {
    if x <= y {
      var e: nat := y - x;
      assert d * y == d * x + d * e;
    }
  }

  /** Brightness of step `step` out of `steps`: `step * 100 / steps` in C's integer division. */
  function Brightness(step: nat, steps: nat): (b: nat)
    requires 0 < steps && step <= steps
    ensures b <= BrightnessMax
    ensures b == BrightnessMax <==> step == steps
    ensures b == 0 <==> step * BrightnessMax < steps
  {
    var a := step * BrightnessMax;
    QuotientBelow(a, steps, BrightnessMax + 1);
    if step < steps then
      QuotientBelow(a, steps, BrightnessMax);
      if a < steps then QuotientBelow(a, steps, 1); a / steps
      else QuotientAtLeast(a, steps, 1); a / steps
    else
      QuotientAtLeast(a, steps, BrightnessMax);
      a / steps
  }

  /** Step index at boundary `t`: `t` on the way up, then `steps - 1` down to `0`. */
  function StepAt(steps: nat, t: nat): (s: nat)
    requires t < Total(steps)
    ensures s <= steps
  {
    if t <= steps then t else 2 * steps - t
  }

  /** Brightness written at boundary `t` of a render. */
  function RampLevel(steps: nat, t: nat): nat
    requires 0 < steps && t < Total(steps)
  {
    Brightness(StepAt(steps, t), steps)
  }

  /** The writes of one step: the selected channels among `0 .. n-1`, in channel order. */
  function TickWrites(mask: bv8, level: nat, n: nat): seq<LedOp>
    requires n <= LedCount
  {
    if n == 0 then []
    else TickWrites(mask, level, n - 1) + (if Selected(mask, n - 1) then [SetBrightness(n - 1, level)] else [])
  }

  /** The writes of the first `k` steps of a render. */
  function RampTrace(mask: bv8, steps: nat, k: nat): seq<LedOp>
    requires 0 < steps && k <= Total(steps)
  {
    if k == 0 then []
    else RampTrace(mask, steps, k - 1) + TickWrites(mask, RampLevel(steps, k - 1), LedCount)
  }

  /** `led_off` on channels `0 .. n-1`, in order. */
  function OffWrites(n: nat): seq<LedOp>
  {
    if n == 0 then [] else OffWrites(n - 1) + [Off(n - 1)]
  }

  /** `leds_off()`: every channel switched off. */
  function AllOff(): seq<LedOp>
  {
    OffWrites(LedCount)
  }

  /** Every call in `ops` sets a mask-selected channel to a level of at most 100. */
  ghost predicate Confined(ops: seq<LedOp>, mask: bv8)
  {
    forall op | op in ops ::
      op.SetBrightness? && op.channel < LedCount && Selected(mask, op.channel) && op.level <= BrightnessMax
  }

  // ---------------------------------------------------------------------------
  // Ramp shape

  /** The ramp starts dark, peaks at full brightness after `steps` boundaries and ends dark. */
  lemma RampEnds(steps: nat)
    requires 0 < steps
    ensures RampLevel(steps, 0) == 0
    ensures RampLevel(steps, steps) == BrightnessMax
    ensures RampLevel(steps, 2 * steps) == 0
    ensures forall t | 0 <= t < Total(steps) :: RampLevel(steps, t) <= BrightnessMax
  {
  }

  /** The ramp never falls on the way up and never rises on the way down. */
  lemma {:induction false} RampRisesThenFalls(steps: nat, t1: nat, t2: nat)
    requires 0 < steps && t1 <= t2 < Total(steps)
    ensures t2 <= steps ==> RampLevel(steps, t1) <= RampLevel(steps, t2)
    ensures steps <= t1 ==> RampLevel(steps, t1) >= RampLevel(steps, t2)
  {
    if t2 <= steps {
      DivMonotone(t1 * BrightnessMax, t2 * BrightnessMax, steps);
    }
    if steps <= t1 {
      var s1, s2 := StepAt(steps, t1), StepAt(steps, t2);
      assert s2 <= s1;
      DivMonotone(s2 * BrightnessMax, s1 * BrightnessMax, steps);
    }
  }

  /** The descent repeats the ascent's levels in reverse: boundary `t` and `2*steps - t` agree. */
  lemma RampMirror(steps: nat, t: nat)
    requires 0 < steps && t <= steps
    ensures RampLevel(steps, 2 * steps - t) == RampLevel(steps, t)
  {
  }

  /** Every caller renders 2000 ms: 100 steps each way, and the brightness equals the step index. */
  lemma GlanceRamp(t: nat)
    requires t < Total(Steps(2000))
    ensures Steps(2000) == 100
    ensures RampLevel(100, t) == StepAt(100, t)
  {
  }

  // ---------------------------------------------------------------------------
  // Mask confinement

  /** One step writes channel `i` (below `n`) exactly when the mask selects it, and only at `level`. */
  lemma {:induction false} TickWritesExact(mask: bv8, level: nat, n: nat)
    requires n <= LedCount
    ensures |TickWrites(mask, level, n)| <= n
    ensures forall op | op in TickWrites(mask, level, n) ::
      op.SetBrightness? && op.channel < n && Selected(mask, op.channel) && op.level == level
    ensures forall i | 0 <= i < n :: SetBrightness(i, level) in TickWrites(mask, level, n) <==> Selected(mask, i)
  {
    if n > 0 {
      TickWritesExact(mask, level, n - 1);
    }
  }

  /** However many steps ran, only mask-selected channels were written, each with a level of at most 100. */
  lemma {:induction false} RampConfined(mask: bv8, steps: nat, k: nat)
    requires 0 < steps && k <= Total(steps)
    ensures Confined(RampTrace(mask, steps, k), mask)
  {
    if k > 0 {
      RampConfined(mask, steps, k - 1);
      TickWritesExact(mask, RampLevel(steps, k - 1), LedCount);
    }
  }

  /** A render cut short after `j` steps wrote a prefix of what the full render writes. */
  lemma {:induction false} RampPrefix(mask: bv8, steps: nat, j: nat, k: nat)
    requires 0 < steps && j <= k <= Total(steps)
    ensures RampTrace(mask, steps, j) <= RampTrace(mask, steps, k)
  {
    if j < k {
      RampPrefix(mask, steps, j, k - 1);
    }
  }

  /** Switching everything off names each channel once and writes no brightness. */
  lemma {:induction false} OffWritesExact(n: nat)
    ensures |OffWrites(n)| == n
    ensures forall i | 0 <= i < n :: OffWrites(n)[i] == Off(i)
  {
    if n > 0 {
      OffWritesExact(n - 1);
    }
  }
}
