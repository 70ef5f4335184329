# LED indicator animation engine

This project models the animation engine of a ZMK keyboard LED indicator,
`src/indicator.c`. The engine drives three discrete LEDs. It has three parts.

- **Fade renderer.** `pwm_leds_bitmask` ramps the mask-selected channels up
  over `steps + 1` steps and down over `steps`, where `steps = duration / 2 / 10`.
  Each step writes brightness `step * 100 / steps`. Before every step the
  renderer compares a captured generation token with the live generation
  counter. On a mismatch it calls `leds_off` and returns. On normal completion
  it also calls `leds_off`.
- **Status classifiers.** `battery_status_animation` and `cpi_status_animation`
  are first-match-wins threshold cascades. Each turns a battery level or a CPI
  value into a render request: a channel mask and 2000 ms.
- **State machine.** `anim_handler` dispatches on the single pending-event
  slot `fmt_event`. It runs:
  - a status glance (`handle_*_status_event`), which afterwards resumes the
    ambient loop;
  - an ambient loop (`charging_animation` and `discharged_animation`), which
    repeats a fixed render until the generation goes stale;
  - or a stop.

  The ingestion entry points (`indicate_battery`, `indicate_connection`, the
  CPI consumer's loop body, the charge-pin callback and `battery_listener`)
  each do three things:
  - bump the generation;
  - overwrite the event;
  - mark the work item pending.

Files:
- `ints.dfy` holds the C integer widths the model needs.
- `fade.dfy` holds the renderer's arithmetic and the trace of LED driver calls
  one render produces, with the ramp-shape and mask-confinement lemmas.
- `classifier.dfy` holds the two cascades and a table-driven reference
  definition of first-match selection.
- `events.dfy` holds the states, the events, the ingestion steps as one
  function on the shared words, the fold of interleaved arrivals, the first
  stale generation check, and the resume rule.
- `scheduler.dfy` holds class `Animator`. It has:
  - the LED array and driver-call trace;
  - the shared words (`generation`, `event`, `scheduled`, `cpiValue`) and the
    ambient mode `state`;
  - the optional supply rail;
  - every operation above as a method.

Concurrency is modelled by an oracle. `clock` counts generation checks: one
before each renderer step, and one at the head of each ambient loop pass.
`arrivals[c]`, when present, is the ingestion step another context completes
just before check `c`. Each ingestion step is atomic. This lets the contracts
say exactly which check cancels a render and what the shared words hold
afterwards.

`battery_listener` (src/indicator.c:354) ignores a critical level while the
mode is charging. `BatteryListener` and `Events.Posts` model that.

An ambient loop's passes are laid out on the clock. The loop makes its first
check at the clock it starts from. Render `i` then begins `PassStart(i)`
checks later. A full pass is one loop-head check plus the 201 checks of a full
2000 ms render. `LoopCuts` records, for each render, that it ended at its own
first stale check. It also records that every render but the last ran in full.

The handlers in class `Animator` follow the code as written: after a glance
they re-post the ambient event unconditionally. The corrected resume is stated
separately; see Findings.

## Model

| member | source | states |
|---|---|---|
| Fade.Brightness | src/indicator.c:115 | `step * 100 / steps` lies in 0..100. It is 100 exactly at the peak step. It is 0 exactly when `step * 100 < steps`. |
| Fade.StepAt | src/indicator.c:108-132 | The step index at check `t` counts up `0..steps`, then down `steps-1..0`, and never exceeds `steps`. |
| Fade.RampEnds | src/indicator.c:104-141 | A render starts at brightness 0, peaks at 100 after `steps` checks, and ends at 0. Every level is at most 100. |
| Fade.RampRisesThenFalls | src/indicator.c:108-141 | Brightness never falls during the first loop and never rises during the second. |
| Fade.RampMirror | src/indicator.c:125-132 | The second loop writes the first loop's levels in reverse order. |
| Fade.GlanceRamp | src/indicator.c:106-115 | With the 2000 ms every caller passes, `steps` is 100 and the brightness equals the step index. |
| Fade.TickWritesExact | src/indicator.c:116-122 | One step writes channel `i` exactly when bit `i` of the mask is set, and only at that step's level. |
| Fade.RampConfined | src/indicator.c:116-122 | However many steps ran, every brightness write went to a mask-selected channel with a level of at most 100. |
| Fade.RampPrefix | src/indicator.c:110-114 | A render cancelled after `j` steps wrote a prefix of what the uncancelled render writes. |
| Fade.OffWritesExact | src/indicator.c:96-102 | `leds_off` switches off channels 0, 1 and 2 once each, in order, and writes no brightness. |
| Classifier.TierIndex | src/indicator.c:152-163 | First-match selection finds the first threshold the value exceeds, or reports that none matched. |
| Classifier.BatteryRender | src/indicator.c:152-163 | Above HIGH gives 0b010, else above MID gives 0b011, else 0b001. This is the table reference's answer. The mask is non-empty and within channels 0..2. The duration is 2000 ms. |
| Classifier.CpiRender | src/indicator.c:176-191 | Above ULTRA gives 0b101, else above HIGH 0b010, else above MID 0b011, else 0b001. This is the table reference's answer. The mask is non-empty and within channels 0..2. The duration is 2000 ms. |
| Classifier.TierIndexAntitone | src/indicator.c:152-191 | In a first-match cascade, a larger value never selects a later tier. |
| Classifier.BatteryTierMonotone | src/indicator.c:152-163 | A fuller battery never shows a lower tier. |
| Classifier.CpiTierMonotone | src/indicator.c:176-191 | A higher CPI never shows a lower tier. |
| Events.Ingest | src/indicator.c:350-388 | An acting ingestion step adds exactly one to the generation, overwrites the event with its own and marks work pending. `battery_listener` is the only step that can be ignored: it acts only at or below the critical level and when not charging, and an ignored step changes nothing. Only the CPI consumer writes the CPI value. |
| Events.FirstStale | src/indicator.c:110-114 | Every check before the returned index finds the token current. The check at that index, if it is within the render, finds it stale. |
| Events.FirstStaleUnique | src/indicator.c:110-131 | An index with those two properties is unique: it is exactly `FirstStale`'s answer. |
| Events.AfterGlanceAsWritten | src/indicator.c:234-254 | As written, charging re-posts START_CHARGING and reschedules. Discharged re-posts START_DISCHARGED and reschedules. Nothing else changes. Idle changes nothing at all. |
| Events.AfterGlance | src/indicator.c:234-254 | The corrected resume applies the as-written rule only when the generation still equals the token. Otherwise it leaves the shared words untouched. |
| Events.ArriveSplit | src/indicator.c:350-388 | Interleaved ingestion steps compose: `a + b` checks' arrivals are the first `a`, then the next `b`. |
| Events.ArriveGen | src/indicator.c:356-386 | After any interleaving, the generation is the start value plus the number of acting ingestion steps. |
| Events.ArriveGeneration | src/indicator.c:356-386 | The generation never decreases. It is unchanged exactly when no step acted, and then nothing else changed. |
| Events.ArriveLatestWins | src/indicator.c:357-387 | The pending event is the one the latest acting ingestion step wrote (last writer wins, no queue), and work is pending. |
| Events.StaleStaysStale | src/indicator.c:110-131 | Once a check finds the token stale, every later check does too. |
| Events.GlanceKeepsLatestEvent | src/indicator.c:234-254 | With the corrected resume, a glance interrupted by a newer event leaves that event pending. |
| Events.GlanceResumesWhenQuiet | src/indicator.c:234-254 | With the corrected resume, an uninterrupted glance resumes exactly as the handlers are written. |
| Events.AsWrittenLosesStop | src/indicator.c:238-242 | Counterexample: while charging, the charge pin going low during a glance posts STOP_ANIMATION. The as-written resume overwrites it with START_CHARGING. The corrected resume keeps it. |
| Scheduler.LoopStepMailbox | src/indicator.c:203-213 | One more render of an ambient loop keeps the shared words equal to the fold of every arrival since the loop began. A cancelled render leaves the generation stale. |
| Scheduler.LoopCutsEach | src/indicator.c:203-213 | Every render of an ambient loop but the last ran in full. Render `i` began `PassStart(i)` checks into the loop, after a loop-head check found the token current. It ended at its own first stale check, as `FirstStale` computes it from the shared words at that start. |
| Scheduler.LoopAtCheck | src/indicator.c:207 | A loop-head check keeps the loop state. The shared words are still the fold of every arrival since the loop began. |
| Scheduler.LoopPass | src/indicator.c:207-212 | A pass after a current loop-head check, ending at the render's first stale check `k`, extends the renders by `k`. It moves the clock to the next loop-head check and appends the render's ramp and `leds_off` to the trace. |
| Scheduler.Animator.constructor | src/indicator.c:84-86 | Boot state: idle, STOP_ANIMATION pending, generation 0, work scheduled. All LEDs off is assumed: `init_animation` (src/indicator.c:474-504) does not switch them off; the first STOP_ANIMATION run does. |
| Scheduler.Animator.IndicateBattery | src/indicator.c:365-370 | Generation plus one, BATTERY_STATUS pending, work scheduled. |
| Scheduler.Animator.IndicateConnection | src/indicator.c:372-377 | Generation plus one, CONNECTION_STATUS pending, work scheduled. |
| Scheduler.Animator.ConsumeCpi | src/indicator.c:383-389 | Stores the received CPI value. Generation plus one, START_CPI pending, work scheduled. |
| Scheduler.Animator.ChrgChanged | src/indicator.c:423-436 | Generation plus one and work scheduled. The pin level decides between START_CHARGING and STOP_ANIMATION. |
| Scheduler.Animator.BatteryListener | src/indicator.c:350-361 | Acts only when not charging and the level is at most CRITICAL. Otherwise generation, event and pending flag are unchanged. |
| Scheduler.Animator.Receive | src/indicator.c:350-388 | Every entry point is the ingestion step `Events.Ingest` on the shared words. |
| Scheduler.Animator.Boundary | src/indicator.c:110 | A generation check first lets the arrival scheduled for it land, then advances the clock. |
| Scheduler.Animator.LedsOff | src/indicator.c:96-102 | All three LEDs are off. Exactly the three `led_off` calls are appended to the trace. |
| Scheduler.Animator.SetSelected | src/indicator.c:116-122 | Selected channels take the level. Unselected channels keep their brightness. The trace grows by exactly those writes. |
| Scheduler.Animator.RenderStep | src/indicator.c:110-122 | A check that finds the token stale switches everything off and ends the render at that check. Otherwise the step's brightness goes to the selected channels. |
| Scheduler.Animator.RampUp | src/indicator.c:108-124 | The first loop writes steps `0..steps` in order, or stops at the first stale check. |
| Scheduler.Animator.RampDown | src/indicator.c:125-141 | The second loop writes steps `steps-1..0` in order, or stops at the first stale check. |
| Scheduler.Animator.PwmLedsBitmask | src/indicator.c:104-143 | The render stops at the first stale check. Its trace is the ramp up to that check followed by `leds_off`, and all LEDs end off. The shared words are what the arrivals made them. |
| Scheduler.Animator.BatteryStatusAnimation | src/indicator.c:145-167 | One render of the battery-classified mask for 2000 ms. The rail is off afterwards. |
| Scheduler.Animator.CpiStatusAnimation | src/indicator.c:170-195 | One render of the CPI-classified mask, from the CPI value at the start, for 2000 ms. The rail is off afterwards. |
| Scheduler.Animator.ResumeAfterGlance | src/indicator.c:236-253 | The as-written resume (`Events.AfterGlanceAsWritten`). Charging re-posts START_CHARGING and reschedules. Discharged re-posts START_DISCHARGED and reschedules. Idle changes nothing. Any newer event is overwritten. |
| Scheduler.Animator.HandleBatteryStatusEvent | src/indicator.c:234-254 | A battery glance (render, LEDs off, rail off). Then the as-written resume, applied to whatever the arrivals made of the shared words. |
| Scheduler.Animator.HandleConnectionStatusEvent | src/indicator.c:256-276 | Exactly the battery handler's outcome: the glance renders the battery level, then the as-written resume. |
| Scheduler.Animator.HandleCpiStatusEvent | src/indicator.c:279-299 | A CPI glance, then the same as-written resume. |
| Scheduler.Animator.GlanceLosesStop | src/indicator.c:238-242 | While charging, a glance during which the charge pin went low ends with START_CHARGING pending and the work rescheduled. The STOP_ANIMATION the pin posted is overwritten. The corrected resume would have kept it. |
| Scheduler.Animator.LoopHead | src/indicator.c:207 | The loop-head check reports whether the token is current, and advances the clock by one check. |
| Scheduler.Animator.AmbientRender | src/indicator.c:212 | One pass after a current loop-head check renders the loop's mask. The render ends at its own first stale check `k` (`FirstStale` from the shared words at its start), after `k + 1` checks, or `k` when it ran in full. |
| Scheduler.Animator.AmbientLoop | src/indicator.c:203-213 | Renders the fixed mask back to back. Each render ends at its own first stale check, and only the last can be cut short. A render cut short leaves the generation stale. The clock stands just after the loop-head check that follows the renders. The loop leaves with the rail off exactly when that check found the token stale. The trace is the concatenation of the renders. The mode is untouched. |
| Scheduler.Animator.ChargingAnimation | src/indicator.c:216-232 | The ambient loop on mask 0b011, with the same cancellation: it stops at the first stale check. |
| Scheduler.Animator.DischargedAnimation | src/indicator.c:198-214 | The ambient loop on mask 0b001, with the same cancellation: it stops at the first stale check. |
| Scheduler.Animator.AnimHandler | src/indicator.c:302-337 | The token is the generation when the handler starts, and the pending flag is cleared. Status events leave the mode unchanged, run a glance, and resume as written. START_CHARGING and START_DISCHARGED set the mode and run their loop, which stops at the first stale check. STOP_ANIMATION switches the LEDs off and sets IDLE. The new state in that case does not depend on the old mode, so a repeated stop is idempotent. |

## Findings

| source | as written | input that shows it | evidently intended | confidence | as-written member | corrected member |
|---|---|---|---|---|---|---|
| src/indicator.c:238-242 (same at 243-247, 260-268, 283-291) | After a status glance, the handler writes START_CHARGING or START_DISCHARGED into `fmt_event` and reschedules, whether or not the glance was cancelled by a newer event. | Mode charging, battery glance running with token 1. The charge pin goes low, so the generation becomes 2 and STOP_ANIMATION is pending. The glance returns, and the handler overwrites the event with START_CHARGING, so the stop is lost and the charging loop restarts. | Re-post the ambient event only when the generation still equals the token, i.e. no newer event arrived during the glance. | not executed | Events.AfterGlanceAsWritten (Events.AsWrittenLosesStop, Scheduler.Animator.GlanceLosesStop); the class's handlers follow it | Events.AfterGlance (Events.GlanceKeepsLatestEvent, Events.GlanceResumesWhenQuiet) |

## Left out

- Work queue, threads and timing:
  - the Zephyr work queue, `k_work_reschedule_for_queue` (modelled as the `scheduled` flag), thread creation, blocking on the CPI message queue, and every `k_sleep`;
  - the 50 ms debounce: the sampled pin level is a parameter of `ChrgChanged`.
- Concurrency: true concurrency and the data race on `fmt_state`/`fmt_event`. Ingestion steps are atomic and land only at generation checks, as the `arrivals` oracle schedules them.
- Hardware and build plumbing:
  - GPIO and LDO pin setup and their error paths (`ldo_init`, `chrg_init`);
  - logging, `BUILD_ASSERT`s and the devicetree `led_idx` mapping: channels are 0..2;
  - the keymap behaviour in `src/behaviors/behavior_vfx_rgbled_indicator.c`, which only calls `indicate_battery` or `indicate_connection`.
- Battery level: `zmk_battery_state_of_charge()` is not part of this model. The level is a parameter of the handlers.
- Build options:
  - the CPI path is modelled as compiled in: without the CPI option, `anim_handler` ignores START_CPI;
  - the LDO rail is modelled as a boolean whenever the option is set.
- Scheduler.Animator.AmbientLoop: the `for (;;)` loops are bounded by `fuel` renders. With the token still current after `fuel` renders, the model stops with the rail on, where the source would go on rendering.
- Scheduler.Animator.PwmLedsBitmask: requires `duration >= 20`. A shorter duration gives `steps == 0`, and the source divides by zero. Every caller passes 2000.
- Scheduler.Animator.AnimHandler: the `default` branch (an unknown event) cannot occur with the enumerated event type.
- Events.ArriveGeneration: `generation` is an unbounded `nat`. `anim.generation` is an `atomic_t` that wraps after 2^32 increments. The model does not capture a wrapped generation coming back to an old token. The `token <= generation` preconditions and the monotonicity lemmas rely on the counter never wrapping.
