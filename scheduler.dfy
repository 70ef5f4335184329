/**
 * The animation engine's state object: the three LED channels and the log of
 * driver calls, the ambient mode, the single pending-event slot, the
 * generation counter and the pending-work flag, with the renderer, the
 * status handlers, the ambient loops, the work handler and the ingestion
 * entry points as methods.
 *
 * Concurrency is an oracle: `clock` counts generation checks, and
 * `arrivals[c]`, when present, is the ingestion step that another context
 * completes just before check `c`.
 */
module Scheduler {
  import opened Ints
  import opened Fade
  import opened Classifier
  import opened Events

  /** Channels 0 and 1: the charging loop's mask. */
  const ChargingMask: bv8 := 0x3
  /** Channel 0: the discharged loop's mask. */
  const DischargedMask: bv8 := 0x1

  /** Steps of every render the engine issues (2000 ms). */
  function GlanceSteps(): nat
  {
    Steps(GlanceDuration)
  }

  /** The writes of consecutive renders of `mask`, the i-th ending after `cut[i]` steps, each followed by all-off. */
  function Renders(mask: bv8, steps: nat, cut: seq<nat>): seq<LedOp>
    requires 0 < steps && forall i | 0 <= i < |cut| :: cut[i] <= Total(steps)
  {
    if cut == [] then []
    else Renders(mask, steps, cut[..|cut| - 1]) + RampTrace(mask, steps, cut[|cut| - 1]) + AllOff()
  }

  /** Generation checks a render of `steps` steps makes when its `k`-th check (from 0) is its first stale one. */
  function RenderChecks(steps: nat, k: nat): nat
  {
    if k < Total(steps) then k + 1 else k
  }

  /** Generation checks in one full pass of an ambient loop: the loop-head check, then a full glance-length render. */
  const PassLength: nat := 202

  /** Offset from the loop's first check of the clock at which render `i` of an ambient loop begins. */
  function PassStart(i: nat): nat
  {
    i * PassLength + 1
  }

  /** Offset from the loop's first check of the loop-head check that follows the renders `cut` lists. */
  function LoopEnd(cut: seq<nat>): nat
  {
    if cut == [] then 0 else PassStart(|cut| - 1) + RenderChecks(GlanceSteps(), cut[|cut| - 1])
  }

  /**
   * Render `i` of an ambient loop that began at clock `c0` with shared words
   * `box0` followed a loop-head check that found `token` current, and ended
   * after `k` steps, at its own first stale check.
   */
  ghost predicate PassCut(cfg: Config, st: AnimState, arrivals: map<nat, Input>, token: nat, box0: Mailbox, c0: nat,
                          i: nat, k: nat)
  {
    && Arrive(cfg, st, box0, arrivals, c0, PassStart(i)).generation == token
    && IsFirstStale(cfg, st, Arrive(cfg, st, box0, arrivals, c0, PassStart(i)), arrivals, c0 + PassStart(i), token,
                    Total(GlanceSteps()), k)
  }

  /**
   * The renders of an ambient loop that began at clock `c0` with shared words
   * `box0`: each is a `PassCut`, and every one but the last ran in full.
   */
  ghost predicate LoopCuts(cfg: Config, st: AnimState, arrivals: map<nat, Input>, token: nat, box0: Mailbox, c0: nat,
                           cut: seq<nat>)
    decreases |cut|
  {
    cut != [] ==>
      && LoopCuts(cfg, st, arrivals, token, box0, c0, cut[..|cut| - 1])
      && (|cut| > 1 ==> cut[|cut| - 2] == Total(GlanceSteps()))
      && PassCut(cfg, st, arrivals, token, box0, c0, |cut| - 1, cut[|cut| - 1])
  }

  /** Every render of the loop is a `PassCut`, and every one but the last ran in full. */
  lemma {:induction false} LoopCutsEach(cfg: Config, st: AnimState, arrivals: map<nat, Input>, token: nat,
                                        box0: Mailbox, c0: nat, cut: seq<nat>)
    requires LoopCuts(cfg, st, arrivals, token, box0, c0, cut)
    ensures forall i | 0 <= i < |cut| - 1 :: cut[i] == Total(GlanceSteps())
    ensures forall i | 0 <= i < |cut| :: PassCut(cfg, st, arrivals, token, box0, c0, i, cut[i])
  {
    if cut != [] {
      var init := cut[..|cut| - 1];
      LoopCutsEach(cfg, st, arrivals, token, box0, c0, init);
      assert forall i | 0 <= i < |init| :: init[i] == cut[i];
    }
  }

  /** After full renders only, the next loop-head check is the one just before the next render begins. */
  lemma {:induction false} LoopEndFull(cut: seq<nat>)
    requires |cut| > 0 ==> cut[|cut| - 1] == Total(GlanceSteps())
    ensures LoopEnd(cut) + 1 == PassStart(|cut|)
  {
  }

  /**
   * A render that began at clock `c1`, with shared words `box1`, after a
   * loop-head check found the token current, and ended at its first stale
   * check `k`, extends the loop's renders.
   */
  lemma {:induction false} LoopCutsSnoc(cfg: Config, st: AnimState, arrivals: map<nat, Input>, token: nat, box0: Mailbox, c0: nat,
                     cut: seq<nat>, box1: Mailbox, c1: nat, k: nat)
    requires LoopCuts(cfg, st, arrivals, token, box0, c0, cut)
    requires |cut| > 0 ==> cut[|cut| - 1] == Total(GlanceSteps())
    requires c1 == c0 + LoopEnd(cut) + 1 && box1 == Arrive(cfg, st, box0, arrivals, c0, c1 - c0)
    requires box1.generation == token
    requires k == FirstStale(cfg, st, box1, arrivals, c1, token, 0, Total(GlanceSteps()))
    ensures LoopCuts(cfg, st, arrivals, token, box0, c0, cut + [k])
  {
    LoopEndFull(cut);
    FirstStaleUnique(cfg, st, box1, arrivals, c1, token, Total(GlanceSteps()), k);
    assert PassCut(cfg, st, arrivals, token, box0, c0, |cut|, k);
    assert (cut + [k])[..|cut|] == cut;
  }

  /** The loop-head check after one more render follows that render's own checks. */
  lemma {:induction false} LoopEndSnoc(cut: seq<nat>, k: nat)
    ensures LoopEnd(cut + [k]) == PassStart(|cut|) + RenderChecks(GlanceSteps(), k)
  {
  }

  /** Regrouping a concatenation of four traces. */
  lemma AppendAssoc(a: seq<LedOp>, b: seq<LedOp>, c: seq<LedOp>, d: seq<LedOp>)
    ensures a + (b + c + d) == a + b + c + d
  {
  }

  /**
   * One render of an ambient loop, appended to the renders before it, as
   * seen by the mailbox: it is still the fold of every arrival since the
   * loop began, and a render cut short by check `k` leaves the generation
   * stale.
   */
  lemma {:induction false} LoopStepMailbox(cfg: Config, st: AnimState, arrivals: map<nat, Input>, token: nat, k: nat,
                        box0: Mailbox, c0: nat, box1: Mailbox, c1: nat, box2: Mailbox, c2: nat)
    requires c0 <= c1 && box1 == Arrive(cfg, st, box0, arrivals, c0, c1 - c0)
    requires k < Total(GlanceSteps()) ==> CheckedGen(cfg, st, box1, arrivals, c1, k) != token
    requires c2 == c1 + RenderChecks(GlanceSteps(), k)
    requires box2 == Arrive(cfg, st, box1, arrivals, c1, c2 - c1)
    ensures c0 <= c2 && box2 == Arrive(cfg, st, box0, arrivals, c0, c2 - c0)
    ensures k < Total(GlanceSteps()) ==> box2.generation != token
  {
    ArriveSplit(cfg, st, box0, arrivals, c0, c1 - c0, c2 - c1);
    ArriveGen(cfg, st, box1, arrivals, c1, c2 - c1);
  }

  /** One render of an ambient loop, appended to the renders before it, as seen by the trace. */
  lemma {:induction false} LoopStepTrace(mask: bv8, cut: seq<nat>, k: nat, tr0: seq<LedOp>, tr1: seq<LedOp>, tr2: seq<LedOp>)
    requires forall i | 0 <= i < |cut| :: cut[i] <= Total(GlanceSteps())
    requires k <= Total(GlanceSteps())
    requires tr1 == tr0 + Renders(mask, GlanceSteps(), cut)
    requires tr2 == tr1 + RampTrace(mask, GlanceSteps(), k) + AllOff()
    ensures forall i | 0 <= i < |cut + [k]| :: (cut + [k])[i] <= Total(GlanceSteps())
    ensures tr2 == tr0 + Renders(mask, GlanceSteps(), cut + [k])
  {
    assert (cut + [k])[..|cut|] == cut;
    var r, t := Renders(mask, GlanceSteps(), cut), RampTrace(mask, GlanceSteps(), k);
    assert Renders(mask, GlanceSteps(), cut + [k]) == r + t + AllOff();
    AppendAssoc(tr0, r, t, AllOff());
  }

  /**
   * An ambient loop of `mask` that began at clock `c0` with shared words
   * `box0` and trace `tr0` has finished the renders that `cut` lists and
   * stands at clock `clk` with shared words `bx` and trace `tr`: the shared
   * words are what the arrivals made of `box0`, only the last render can
   * have been cut short, and one that was leaves the generation stale.
   */
  ghost predicate LoopAt(cfg: Config, st: AnimState, arrivals: map<nat, Input>, mask: bv8, token: nat,
                         box0: Mailbox, c0: nat, tr0: seq<LedOp>, cut: seq<nat>, clk: nat, bx: Mailbox,
                         tr: seq<LedOp>)
  {
    && c0 <= clk && token <= bx.generation
    && bx == Arrive(cfg, st, box0, arrivals, c0, clk - c0)
    && (forall i | 0 <= i < |cut| :: cut[i] <= Total(GlanceSteps()))
    && (|cut| > 0 && cut[|cut| - 1] < Total(GlanceSteps()) ==> bx.generation != token)
    && tr == tr0 + Renders(mask, GlanceSteps(), cut)
  }

  /** A loop-head check keeps the loop state: the arrival it lets in is folded into the shared words. */
  lemma {:induction false} LoopAtCheck(cfg: Config, st: AnimState, arrivals: map<nat, Input>, mask: bv8, token: nat,
                                       box0: Mailbox, c0: nat, tr0: seq<LedOp>, cut: seq<nat>, clk: nat,
                                       bx: Mailbox, tr: seq<LedOp>, bx2: Mailbox)
    requires LoopAt(cfg, st, arrivals, mask, token, box0, c0, tr0, cut, clk, bx, tr)
    requires bx2 == Arrive(cfg, st, bx, arrivals, clk, 1) && bx.generation <= bx2.generation
    ensures LoopAt(cfg, st, arrivals, mask, token, box0, c0, tr0, cut, clk + 1, bx2, tr)
  {
    ArriveSplit(cfg, st, box0, arrivals, c0, clk - c0, 1);
  }

  /**
   * A render that began at clock `c1` after a loop-head check found the
   * token current, and ended at its first stale check `k`, extends the loop
   * state by `k`.
   */
  lemma {:induction false} LoopAtRender(cfg: Config, st: AnimState, arrivals: map<nat, Input>, mask: bv8, token: nat,
                                        box0: Mailbox, c0: nat, tr0: seq<LedOp>, cut: seq<nat>, k: nat,
                                        c1: nat, bx1: Mailbox, tr1: seq<LedOp>, c2: nat, bx2: Mailbox, tr2: seq<LedOp>)
    requires LoopAt(cfg, st, arrivals, mask, token, box0, c0, tr0, cut, c1, bx1, tr1) && bx1.generation == token
    requires k == FirstStale(cfg, st, bx1, arrivals, c1, token, 0, Total(GlanceSteps()))
    requires c2 == c1 + RenderChecks(GlanceSteps(), k) && bx2 == Arrive(cfg, st, bx1, arrivals, c1, c2 - c1)
    requires token <= bx2.generation && tr2 == tr1 + RampTrace(mask, GlanceSteps(), k) + AllOff()
    ensures LoopAt(cfg, st, arrivals, mask, token, box0, c0, tr0, cut + [k], c2, bx2, tr2)
  {
    LoopStepMailbox(cfg, st, arrivals, token, k, box0, c0, bx1, c1, bx2, c2);
    LoopStepTrace(mask, cut, k, tr0, tr1, tr2);
  }

  /**
   * One pass of an ambient loop, as seen by the values it touches: a render
   * that began at clock `c1`, just after a loop-head check found the token
   * current, and ended at its first stale check `k`, extends the loop's
   * renders by `k` and leaves the loop before its next loop-head check.
   */
  lemma {:induction false} LoopPass(cfg: Config, st: AnimState, arrivals: map<nat, Input>, mask: bv8, token: nat,
                                    box0: Mailbox, c0: nat, tr0: seq<LedOp>, cut: seq<nat>, k: nat,
                                    c1: nat, bx1: Mailbox, tr1: seq<LedOp>, c2: nat, bx2: Mailbox, tr2: seq<LedOp>)
    requires LoopAt(cfg, st, arrivals, mask, token, box0, c0, tr0, cut, c1, bx1, tr1) && bx1.generation == token
    requires c1 == c0 + LoopEnd(cut) + 1 && LoopCuts(cfg, st, arrivals, token, box0, c0, cut)
    requires k == FirstStale(cfg, st, bx1, arrivals, c1, token, 0, Total(GlanceSteps()))
    requires c2 == c1 + RenderChecks(GlanceSteps(), k) && bx2 == Arrive(cfg, st, bx1, arrivals, c1, c2 - c1)
    requires token <= bx2.generation && tr2 == tr1 + RampTrace(mask, GlanceSteps(), k) + AllOff()
    ensures LoopAt(cfg, st, arrivals, mask, token, box0, c0, tr0, cut + [k], c2, bx2, tr2)
    ensures c2 == c0 + LoopEnd(cut + [k]) && LoopCuts(cfg, st, arrivals, token, box0, c0, cut + [k])
  {
    LoopAtRender(cfg, st, arrivals, mask, token, box0, c0, tr0, cut, k, c1, bx1, tr1, c2, bx2, tr2);
    LoopCutsSnoc(cfg, st, arrivals, token, box0, c0, cut, bx1, c1, k);
    LoopEndSnoc(cut, k);
  }

  class Animator {
    /** Build-time thresholds. */
    const cfg: Config
    /** The concurrency oracle: which ingestion step lands before which generation check. */
    const arrivals: map<nat, Input>
    /** Current brightness of channels 0..2 (0 is off). */
    const leds: array<nat>
    /** Every LED driver call made so far, in order. */
    var trace: seq<LedOp>
    /** The optional LED supply rail: on while a render is in progress. */
    var rail: bool
    /** `anim.generation`. */
    var generation: nat
    /** `fmt_event`. */
    var event: AnimEvent
    /** The animation work item is pending on the work queue. */
    var scheduled: bool
    /** `cpi_cycle_value`. */
    var cpiValue: uint16
    /** `fmt_state`. */
    var state: AnimState
    /** Number of generation checks made so far. */
    var clock: nat

    ghost predicate Valid()
    {
      leds.Length == LedCount
    }

    /** The words that ingestion contexts write. */
    function Box(): Mailbox
      reads this`generation, this`event, this`scheduled, this`cpiValue
    {
      Mailbox(generation, event, scheduled, cpiValue)
    }

    /** A render of `mask` over `steps` steps ran from clock `c0` and trace `tr0`, up to its first stale check. */
    ghost predicate Rendered(mask: bv8, steps: nat, token: nat, box0: Mailbox, c0: nat, tr0: seq<LedOp>)
      requires Valid() && 0 < steps
      reads this`clock, this`state, this`trace, leds
    {
      var k := FirstStale(cfg, state, box0, arrivals, c0, token, 0, Total(steps));
      && clock == c0 + RenderChecks(steps, k)
      && trace == tr0 + RampTrace(mask, steps, k) + AllOff()
      && leds[..] == [0, 0, 0]
    }

    /**
     * A two-second status glance of `mask` ran and left the shared words as
     * `b`; the handlers' resume rule, as written, was then applied to `b`.
     */
    ghost predicate Glanced(mask: bv8, token: nat, box0: Mailbox, c0: nat, tr0: seq<LedOp>, b: Mailbox)
      requires Valid()
      reads this`clock, this`state, this`trace, this`rail, leds
      reads this`generation, this`event, this`scheduled, this`cpiValue
    {
      && RenderedFrom(mask, GlanceSteps(), token, box0, c0, tr0, b)
      && Box() == AfterGlanceAsWritten(state, b)
      && !rail
    }

    /**
     * An ambient loop of `mask` ran from clock `c0` and trace `tr0`: renders
     * back to back, each ended at its own first stale check, until a
     * loop-head check finds the generation stale (rail off) or `fuel` renders
     * have run with the token still current (rail on).
     */
    ghost predicate AmbientRan(mask: bv8, token: nat, fuel: nat, cut: seq<nat>, box0: Mailbox, c0: nat,
                               tr0: seq<LedOp>)
      requires Valid()
      reads this`clock, this`state, this`trace, this`rail, leds
      reads this`generation, this`event, this`scheduled, this`cpiValue
    {
      && LoopAtHead(mask, token, cut, box0, c0, tr0, 1)
      && (rail <==> generation == token)
      && |cut| <= fuel && (generation == token ==> |cut| == fuel)
    }

    /** Boot: idle, STOP_ANIMATION pending, generation 0, work scheduled. */
    constructor (cfg: Config, arrivals: map<nat, Input>)
      ensures Valid() && fresh(leds)
      ensures this.cfg == cfg && this.arrivals == arrivals
      ensures leds[..] == [0, 0, 0] && trace == [] && !rail
      ensures state == Idle && event == StopAnimation && generation == 0 && scheduled
      ensures cpiValue == 0 && clock == 0
    {
      this.cfg := cfg;
      this.arrivals := arrivals;
      leds := new nat[LedCount](_ => 0);
      trace := [];
      rail := false;
      state := Idle;
      event := StopAnimation;
      generation := 0;
      scheduled := true;
      cpiValue := 0;
      clock := 0;
    }

    // -------------------------------------------------------------------------
    // Ingestion entry points

    /** `indicate_battery`. */
    method IndicateBattery()
      modifies this`generation, this`event, this`scheduled
      ensures generation == old(generation) + 1 && event == StartBatteryStatus && scheduled
    {
      generation := generation + 1;
      event := StartBatteryStatus;
      scheduled := true;
    }

    /** `indicate_connection`. */
    method IndicateConnection()
      modifies this`generation, this`event, this`scheduled
      ensures generation == old(generation) + 1 && event == StartConnectionStatus && scheduled
    {
      generation := generation + 1;
      event := StartConnectionStatus;
      scheduled := true;
    }

    /** One pass of the CPI consumer thread, `cpi` being the value taken off the queue. */
    method ConsumeCpi(cpi: uint16)
      modifies this`cpiValue, this`generation, this`event, this`scheduled
      ensures cpiValue == cpi
      ensures generation == old(generation) + 1 && event == StartCpi && scheduled
    {
      cpiValue := cpi;
      generation := generation + 1;
      event := StartCpi;
      scheduled := true;
    }

    /** `chrg_changed` after its debounce delay, `charging` being the sampled pin level. */
    method ChrgChanged(charging: bool)
      modifies this`generation, this`event, this`scheduled
      ensures generation == old(generation) + 1 && scheduled
      ensures event == if charging then StartCharging else StopAnimation
    {
      if charging {
        generation := generation + 1;
        event := StartCharging;
        scheduled := true;
      } else {
        generation := generation + 1;
        event := StopAnimation;
        scheduled := true;
      }
    }

    /** `battery_listener`: a critical level forces the discharged loop, unless charging. */
    method BatteryListener(level: uint8)
      modifies this`generation, this`event, this`scheduled
      ensures state != Charging && level <= cfg.batteryCritical ==>
        generation == old(generation) + 1 && event == StartDischarged && scheduled
      ensures !(state != Charging && level <= cfg.batteryCritical) ==>
        generation == old(generation) && event == old(event) && scheduled == old(scheduled)
    {
      if state != Charging && level <= cfg.batteryCritical {
        generation := generation + 1;
        event := StartDischarged;
        scheduled := true;
      }
    }

    /** Hands one arrival to the entry point it stands for. */
    method Receive(input: Input)
      modifies this`cpiValue, this`generation, this`event, this`scheduled
      ensures Box() == Ingest(cfg, state, old(Box()), input)
    {
      match input {
        case ShowBattery => IndicateBattery();
        case ShowConnection => IndicateConnection();
        case CpiReport(cpi) => ConsumeCpi(cpi);
        case ChargePin(charging) => ChrgChanged(charging);
        case BatteryChanged(level) => BatteryListener(level);
      }
    }

    /** A generation check: the arrival scheduled for this check, if any, lands first. */
    method Boundary()
      modifies this`cpiValue, this`generation, this`event, this`scheduled, this`clock
      ensures clock == old(clock) + 1 && old(generation) <= generation
      ensures Box() == Arrive(cfg, state, old(Box()), arrivals, old(clock), 1)
    {
      if clock in arrivals {
        Receive(arrivals[clock]);
      }
      clock := clock + 1;
    }

    // -------------------------------------------------------------------------
    // LED sink

    /** `leds_off`. */
    method LedsOff()
      requires Valid()
      modifies leds, this`trace
      ensures leds[..] == [0, 0, 0]
      ensures trace == old(trace) + AllOff()
    {
      for i := 0 to LedCount
        invariant forall j | 0 <= j < i :: leds[j] == 0
        invariant trace == old(trace) + OffWrites(i)
      {
        leds[i] := 0;
        trace := trace + [Off(i)];
      }
      assert leds[..] == [leds[0], leds[1], leds[2]];
    }

    /** The inner loop of one renderer step: `level` on every channel the mask selects. */
    method SetSelected(mask: bv8, level: nat)
      requires Valid()
      modifies leds, this`trace
      ensures trace == old(trace) + TickWrites(mask, level, LedCount)
      ensures forall i | 0 <= i < LedCount :: leds[i] == if Selected(mask, i) then level else old(leds[i])
    {
      for i := 0 to LedCount
        invariant trace == old(trace) + TickWrites(mask, level, i)
        invariant forall j | 0 <= j < LedCount :: leds[j] == if j < i && Selected(mask, j) then level else old(leds[j])
      {
        if Selected(mask, i) {
          leds[i] := level;
          trace := trace + [SetBrightness(i, level)];
        }
      }
    }

    // -------------------------------------------------------------------------
    // Fade renderer

    /** A render of `mask` that started at clock `c0` and trace `tr0` has passed its first `t` checks. */
    ghost predicate RampedTo(mask: bv8, steps: nat, token: nat, t: nat, box0: Mailbox, c0: nat, tr0: seq<LedOp>)
      requires Valid()
      reads this`clock, this`state, this`trace, this`generation, this`event, this`scheduled, this`cpiValue
    {
      && 0 < steps && t <= Total(steps)
      && clock == c0 + t && token <= generation
      && Box() == Arrive(cfg, state, box0, arrivals, c0, t)
      && trace == tr0 + RampTrace(mask, steps, t)
      && FirstStale(cfg, state, box0, arrivals, c0, token, 0, Total(steps))
         == FirstStale(cfg, state, box0, arrivals, c0, token, t, Total(steps))
    }

    /**
     * A render that started at clock `c0` and trace `tr0` is over and left
     * the shared words as `b`, which is what the arrivals made of `box0`.
     */
    ghost predicate RenderedFrom(mask: bv8, steps: nat, token: nat, box0: Mailbox, c0: nat, tr0: seq<LedOp>, b: Mailbox)
      requires Valid() && 0 < steps
      reads this`clock, this`state, this`trace, leds
    {
      && c0 <= clock && token <= b.generation
      && Rendered(mask, steps, token, box0, c0, tr0)
      && b == Arrive(cfg, state, box0, arrivals, c0, clock - c0)
    }

    /** A render that started at clock `c0` and trace `tr0` is over; the shared words are what the arrivals made them. */
    ghost predicate RenderDone(mask: bv8, steps: nat, token: nat, box0: Mailbox, c0: nat, tr0: seq<LedOp>)
      requires Valid() && 0 < steps
      reads this`clock, this`state, this`trace, this`generation, this`event, this`scheduled, this`cpiValue, leds
    {
      RenderedFrom(mask, steps, token, box0, c0, tr0, Box())
    }

    /**
     * One step of the renderer, the `t`-th check of a render that started at
     * clock `c0`: compare the token with the live generation, then switch
     * everything off, or write `step`'s brightness to the selected channels.
     */
    method RenderStep(mask: bv8, steps: nat, step: nat, token: nat, ghost t: nat,
                      ghost box0: Mailbox, ghost c0: nat, ghost tr0: seq<LedOp>)
      returns (current: bool)
      requires Valid() && RampedTo(mask, steps, token, t, box0, c0, tr0)
      requires t < Total(steps) && step == StepAt(steps, t)
      modifies leds, this`trace, this`cpiValue, this`generation, this`event, this`scheduled, this`clock
      ensures current <==> CheckedGen(cfg, state, box0, arrivals, c0, t) == token
      ensures current ==> RampedTo(mask, steps, token, t + 1, box0, c0, tr0)
      ensures !current ==> RenderDone(mask, steps, token, box0, c0, tr0)
    {
      Boundary();
      ArriveSplit(cfg, state, box0, arrivals, c0, t, 1);
      ArriveGen(cfg, state, box0, arrivals, c0, t + 1);
      if generation != token {
        LedsOff();
        return false;
      }
      var brightness := step * BrightnessMax / steps;
      assert brightness == RampLevel(steps, t);
      SetSelected(mask, brightness);
      assert trace == tr0 + RampTrace(mask, steps, t) + TickWrites(mask, brightness, LedCount);
      return true;
    }

    /** The first loop of `pwm_leds_bitmask`: steps `0 .. steps`, brightness rising. */
    method RampUp(mask: bv8, steps: nat, token: nat, ghost box0: Mailbox, ghost c0: nat, ghost tr0: seq<LedOp>)
      returns (current: bool)
      requires Valid() && RampedTo(mask, steps, token, 0, box0, c0, tr0)
      modifies leds, this`trace, this`cpiValue, this`generation, this`event, this`scheduled, this`clock
      ensures current ==> RampedTo(mask, steps, token, steps + 1, box0, c0, tr0)
      ensures !current ==> RenderDone(mask, steps, token, box0, c0, tr0)
    {
      var step := 0;
      while step <= steps
        invariant step <= steps + 1
        invariant RampedTo(mask, steps, token, step, box0, c0, tr0)
      {
        current := RenderStep(mask, steps, step, token, step, box0, c0, tr0);
        if !current {
          return;
        }
        step := step + 1;
      }
      return true;
    }

    /** The second loop of `pwm_leds_bitmask`: steps `steps - 1` down to `0`, brightness falling. */
    method RampDown(mask: bv8, steps: nat, token: nat, ghost box0: Mailbox, ghost c0: nat, ghost tr0: seq<LedOp>)
      returns (current: bool)
      requires Valid() && RampedTo(mask, steps, token, steps + 1, box0, c0, tr0)
      modifies leds, this`trace, this`cpiValue, this`generation, this`event, this`scheduled, this`clock
      ensures current ==> RampedTo(mask, steps, token, Total(steps), box0, c0, tr0)
      ensures !current ==> RenderDone(mask, steps, token, box0, c0, tr0)
    {
      var step := steps - 1;
      while step >= 0
        invariant -1 <= step < steps
        invariant RampedTo(mask, steps, token, 2 * steps - step, box0, c0, tr0)
      {
        current := RenderStep(mask, steps, step, token, 2 * steps - step, box0, c0, tr0);
        if !current {
          return;
        }
        step := step - 1;
      }
      return true;
    }

    /**
     * `pwm_leds_bitmask`: ramp the selected channels up over `steps + 1`
     * steps and down over `steps`, checking the token before each step;
     * switch everything off when a check finds it stale, or at the end.
     */
    method PwmLedsBitmask(mask: bv8, duration: uint16, token: nat)
      requires Valid() && 2 * StepPeriodMs <= duration && token <= generation
      modifies leds, this`trace, this`cpiValue, this`generation, this`event, this`scheduled, this`clock
      ensures RenderDone(mask, Steps(duration), token, old(Box()), old(clock), old(trace))
    {
      var steps: nat := duration / 2 / StepPeriodMs;
      assert steps == Steps(duration) && 0 < steps;
      ghost var box0, c0, tr0 := Box(), clock, trace;
      var current := RampUp(mask, steps, token, box0, c0, tr0);
      if current {
        current := RampDown(mask, steps, token, box0, c0, tr0);
        if current {
          LedsOff();
        }
      }
    }

    // -------------------------------------------------------------------------
    // Status glances

    /** `battery_status_animation`: classify the level, power the rail, render, unpower. */
    method BatteryStatusAnimation(token: nat, level: uint8)
      requires Valid() && token <= generation
      modifies leds, this`trace, this`rail, this`cpiValue, this`generation, this`event, this`scheduled, this`clock
      ensures !rail
      ensures RenderDone(BatteryRender(cfg, level).mask, GlanceSteps(), token, old(Box()), old(clock), old(trace))
    {
      rail := true;
      var r := BatteryRender(cfg, level);
      PwmLedsBitmask(r.mask, r.duration, token);
      rail := false;
    }

    /** `cpi_status_animation`: classify the last CPI value, power the rail, render, unpower. */
    method CpiStatusAnimation(token: nat)
      requires Valid() && token <= generation
      modifies leds, this`trace, this`rail, this`cpiValue, this`generation, this`event, this`scheduled, this`clock
      ensures !rail
      ensures RenderDone(CpiRender(cfg, old(cpiValue)).mask, GlanceSteps(), token, old(Box()), old(clock), old(trace))
    {
      var cpi := cpiValue;
      rail := true;
      var r := CpiRender(cfg, cpi);
      PwmLedsBitmask(r.mask, r.duration, token);
      rail := false;
    }

    /**
     * The tail shared by the glance handlers: while charging or discharged,
     * re-post that loop's start event and reschedule the handler, whatever
     * happened during the glance. Idle posts nothing.
     */
    method ResumeAfterGlance()
      modifies this`event, this`scheduled
      ensures Box() == AfterGlanceAsWritten(state, old(Box()))
    {
      match state {
        case Charging =>
          event := StartCharging;
          scheduled := true;
        case Discharged =>
          event := StartDischarged;
          scheduled := true;
        case Idle =>
      }
    }

    /** `handle_battery_status_event`: one battery glance, then the resume; `b` is what the glance left. */
    method HandleBatteryStatusEvent(token: nat, level: uint8) returns (ghost b: Mailbox)
      requires Valid() && token <= generation
      modifies leds, this`trace, this`rail, this`cpiValue, this`generation, this`event, this`scheduled, this`clock
      ensures Glanced(BatteryRender(cfg, level).mask, token, old(Box()), old(clock), old(trace), b)
    {
      BatteryStatusAnimation(token, level);
      b := Box();
      ResumeAfterGlance();
    }

    /** `handle_connection_status_event`: the same glance of the battery level as the battery handler. */
    method HandleConnectionStatusEvent(token: nat, level: uint8) returns (ghost b: Mailbox)
      requires Valid() && token <= generation
      modifies leds, this`trace, this`rail, this`cpiValue, this`generation, this`event, this`scheduled, this`clock
      ensures Glanced(BatteryRender(cfg, level).mask, token, old(Box()), old(clock), old(trace), b)
    {
      b := HandleBatteryStatusEvent(token, level);
    }

    /** `handle_cpi_status_event`: one CPI glance, then the same resume; `b` is what the glance left. */
    method HandleCpiStatusEvent(token: nat) returns (ghost b: Mailbox)
      requires Valid() && token <= generation
      modifies leds, this`trace, this`rail, this`cpiValue, this`generation, this`event, this`scheduled, this`clock
      ensures Glanced(CpiRender(cfg, old(cpiValue)).mask, token, old(Box()), old(clock), old(trace), b)
    {
      CpiStatusAnimation(token);
      b := Box();
      ResumeAfterGlance();
    }

    /**
     * A glance shown while charging and cut short by the charge pin going low
     * ends with START_CHARGING pending: the STOP_ANIMATION the pin posted is
     * overwritten, where the guarded resume would have kept it.
     */
    lemma {:induction false} GlanceLosesStop(mask: bv8, token: nat, box0: Mailbox, c0: nat, tr0: seq<LedOp>, b: Mailbox, c: nat)
      requires Valid() && state == Charging && token == box0.generation
      requires Glanced(mask, token, box0, c0, tr0, b)
      requires c0 <= c < clock && c in arrivals && arrivals[c] == ChargePin(false)
      requires forall d | c < d < clock :: !PostsAt(cfg, state, arrivals, d)
      ensures b.event == StopAnimation
      ensures event == StartCharging && scheduled
      ensures AfterGlance(state, b, token).event == StopAnimation
    {
      ArriveLatestWins(cfg, state, box0, arrivals, c0, clock - c0, c);
      GlanceKeepsLatestEvent(cfg, state, box0, arrivals, c0, clock - c0, c);
    }

    // -------------------------------------------------------------------------
    // Ambient loops

    /**
     * The loop state of an ambient loop of `mask` that started at clock `c0`
     * and trace `tr0` and has finished the renders that `cut` lists: only
     * the last render can have been cut short, and one that was leaves the
     * generation stale.
     */
    ghost predicate Looping(mask: bv8, token: nat, cut: seq<nat>, box0: Mailbox, c0: nat, tr0: seq<LedOp>)
      requires Valid()
      reads this`clock, this`state, this`trace, leds
      reads this`generation, this`event, this`scheduled, this`cpiValue
    {
      && LoopAt(cfg, state, arrivals, mask, token, box0, c0, tr0, cut, clock, Box(), trace)
      && (|cut| > 0 ==> leds[..] == [0, 0, 0])
    }

    /**
     * An ambient loop of `mask` that started at clock `c0` and trace `tr0`
     * has finished the renders that `cut` lists, each ended at its own first
     * stale check, and stands before (`checked == 0`) or just after
     * (`checked == 1`) the loop-head check that follows them.
     */
    ghost predicate LoopAtHead(mask: bv8, token: nat, cut: seq<nat>, box0: Mailbox, c0: nat, tr0: seq<LedOp>,
                               checked: nat)
      requires Valid()
      reads this`clock, this`state, this`trace, leds
      reads this`generation, this`event, this`scheduled, this`cpiValue
    {
      && Looping(mask, token, cut, box0, c0, tr0)
      && clock == c0 + LoopEnd(cut) + checked
      && LoopCuts(cfg, state, arrivals, token, box0, c0, cut)
    }

    /**
     * The loop-head check of an ambient loop: let in the arrival due, then
     * compare the token with the live generation.
     */
    method LoopHead(mask: bv8, token: nat, ghost cut: seq<nat>, ghost box0: Mailbox, ghost c0: nat,
                    ghost tr0: seq<LedOp>) returns (current: bool)
      requires Valid() && LoopAtHead(mask, token, cut, box0, c0, tr0, 0)
      modifies this`cpiValue, this`generation, this`event, this`scheduled, this`clock
      ensures current <==> generation == token
      ensures LoopAtHead(mask, token, cut, box0, c0, tr0, 1)
    {
      ghost var bx, cl := Box(), clock;
      Boundary();
      LoopAtCheck(cfg, state, arrivals, mask, token, box0, c0, tr0, cut, cl, bx, trace, Box());
      current := generation == token;
    }

    /**
     * One pass of an ambient loop whose loop-head check found the token
     * current: a glance-length render of `mask`, which ends at its own first
     * stale check `k`.
     */
    method AmbientRender(mask: bv8, token: nat, ghost cut: seq<nat>, ghost box0: Mailbox, ghost c0: nat,
                         ghost tr0: seq<LedOp>) returns (ghost k: nat)
      requires Valid() && generation == token
      requires LoopAtHead(mask, token, cut, box0, c0, tr0, 1)
      modifies leds, this`trace, this`cpiValue, this`generation, this`event, this`scheduled, this`clock
      ensures k == FirstStale(cfg, state, old(Box()), arrivals, old(clock), token, 0, Total(GlanceSteps()))
      ensures clock == old(clock) + RenderChecks(GlanceSteps(), k)
      ensures LoopAtHead(mask, token, cut + [k], box0, c0, tr0, 0)
    {
      ghost var box1, c1, tr1 := Box(), clock, trace;
      k := FirstStale(cfg, state, box1, arrivals, c1, token, 0, Total(GlanceSteps()));
      PwmLedsBitmask(mask, GlanceDuration, token);
      LoopPass(cfg, state, arrivals, mask, token, box0, c0, tr0, cut, k, c1, box1, tr1, clock, Box(), trace);
    }

    /**
     * The `for (;;)` loop shared by `charging_animation` and
     * `discharged_animation`: power the rail, then render `mask` again and
     * again; leave (rail off) at the first check that finds the token stale.
     * `fuel` bounds the number of renders the model follows.
     */
    method AmbientLoop(mask: bv8, token: nat, fuel: nat) returns (ghost cut: seq<nat>)
      requires Valid() && token <= generation
      modifies leds, this`trace, this`rail, this`cpiValue, this`generation, this`event, this`scheduled, this`clock
      ensures AmbientRan(mask, token, fuel, cut, old(Box()), old(clock), old(trace))
    {
      ghost var box0, c0, tr0 := Box(), clock, trace;
      rail := true;
      cut := [];
      var n := fuel;
      while true
        decreases n
        invariant rail && |cut| + n == fuel
        invariant LoopAtHead(mask, token, cut, box0, c0, tr0, 0)
      {
        var current := LoopHead(mask, token, cut, box0, c0, tr0);
        if !current {
          rail := false;
          return;
        }
        if n == 0 {
          return;
        }
        ghost var k := AmbientRender(mask, token, cut, box0, c0, tr0);
        cut := cut + [k];
        n := n - 1;
      }
    }

    /** `charging_animation`: the ambient loop on channels 0 and 1. */
    method ChargingAnimation(token: nat, fuel: nat) returns (ghost cut: seq<nat>)
      requires Valid() && token <= generation
      modifies leds, this`trace, this`rail, this`cpiValue, this`generation, this`event, this`scheduled, this`clock
      ensures AmbientRan(ChargingMask, token, fuel, cut, old(Box()), old(clock), old(trace))
    {
      cut := AmbientLoop(ChargingMask, token, fuel);
    }

    /** `discharged_animation`: the ambient loop on channel 0. */
    method DischargedAnimation(token: nat, fuel: nat) returns (ghost cut: seq<nat>)
      requires Valid() && token <= generation
      modifies leds, this`trace, this`rail, this`cpiValue, this`generation, this`event, this`scheduled, this`clock
      ensures AmbientRan(DischargedMask, token, fuel, cut, old(Box()), old(clock), old(trace))
    {
      cut := AmbientLoop(DischargedMask, token, fuel);
    }

    // -------------------------------------------------------------------------
    // Work handler

    /**
     * `anim_handler`, run by the work queue, which takes the item off its
     * pending list first: capture the generation as the token and dispatch
     * on the pending event. `level` is the battery level the battery
     * subsystem reports; `fuel` bounds the ambient loops.
     */
    method AnimHandler(level: uint8, fuel: nat) returns (ghost cut: seq<nat>, ghost b: Mailbox)
      requires Valid()
      modifies leds, this`trace, this`rail, this`cpiValue, this`generation, this`event, this`scheduled, this`clock,
        this`state
      ensures old(event) in {StartBatteryStatus, StartConnectionStatus} ==>
        && state == old(state)
        && Glanced(BatteryRender(cfg, level).mask, old(generation), old(Box()).(scheduled := false), old(clock), old(trace), b)
      ensures old(event) == StartCpi ==>
        && state == old(state)
        && Glanced(CpiRender(cfg, old(cpiValue)).mask, old(generation), old(Box()).(scheduled := false), old(clock),
                   old(trace), b)
      ensures old(event) == StartCharging ==>
        && state == Charging
        && AmbientRan(ChargingMask, old(generation), fuel, cut, old(Box()).(scheduled := false), old(clock), old(trace))
      ensures old(event) == StartDischarged ==>
        && state == Discharged
        && AmbientRan(DischargedMask, old(generation), fuel, cut, old(Box()).(scheduled := false), old(clock),
                      old(trace))
      ensures old(event) == StopAnimation ==>
        && state == Idle && rail == old(rail) && clock == old(clock)
        && leds[..] == [0, 0, 0] && trace == old(trace) + AllOff()
        && Box() == old(Box()).(scheduled := false)
    {
      cut, b := [], Box();
      scheduled := false;
      var token := generation;
      match event {
        case StartBatteryStatus =>
          b := HandleBatteryStatusEvent(token, level);
        case StartConnectionStatus =>
          b := HandleConnectionStatusEvent(token, level);
        case StartCpi =>
          b := HandleCpiStatusEvent(token);
        case StartCharging =>
          state := Charging;
          cut := ChargingAnimation(token, fuel);
        case StartDischarged =>
          state := Discharged;
          cut := DischargedAnimation(token, fuel);
        case StopAnimation =>
          LedsOff();
          state := Idle;
      }
    }
  }
}
