/**
 * Animation states and events, the ingestion contexts' effect on the shared
 * words (generation counter, pending event, pending work, CPI value), the
 * generation checks a render makes, and the resume rule after a status glance.
 */
module Events {
  import opened Ints
  import opened Classifier

  /** `enum animation_state`: the ambient mode. */
  datatype AnimState = Charging | Discharged | Idle

  /** `enum animation_event`: the single pending-event slot's values. */
  datatype AnimEvent =
    | StartBatteryStatus
    | StartConnectionStatus
    | StartCharging
    | StartDischarged
    | StartCpi
    | StopAnimation

  /** What one ingestion context delivers in one atomic step. */
  datatype Input =
    | ShowBattery                    // indicate_battery(), called by the keymap behaviour
    | ShowConnection                 // indicate_connection()
    | CpiReport(cpi: uint16)         // a value taken off the CPI queue by the consumer thread
    | ChargePin(charging: bool)      // the CHRG pin level sampled after the debounce delay
    | BatteryChanged(level: uint8)   // a battery state-of-charge event seen by battery_listener

  /** The words ingestion contexts write: generation counter, pending event, pending work, last CPI value. */
  datatype Mailbox = Mailbox(generation: nat, event: AnimEvent, scheduled: bool, cpi: uint16)

  /** Whether an input acts at all: only the battery listener may ignore its input. */
  predicate Posts(cfg: Config, st: AnimState, input: Input)
  {
    match input
    case BatteryChanged(level) => st != Charging && level <= cfg.batteryCritical
    case _ => true
  }

  /** The event an acting input writes into the pending slot. */
  function PostedEvent(input: Input): AnimEvent
  {
    match input
    case ShowBattery => StartBatteryStatus
    case ShowConnection => StartConnectionStatus
    case CpiReport(_) => StartCpi
    case ChargePin(charging) => if charging then StartCharging else StopAnimation
    case BatteryChanged(_) => StartDischarged
  }

  /** One ingestion step: bump the generation, overwrite (not queue) the event, mark work pending. */
  function Ingest(cfg: Config, st: AnimState, box: Mailbox, input: Input): (r: Mailbox)
    ensures Posts(cfg, st, input) ==>
      r.generation == box.generation + 1 && r.event == PostedEvent(input) && r.scheduled
    ensures !Posts(cfg, st, input) ==> r == box
    ensures r.cpi == if input.CpiReport? then input.cpi else box.cpi
  {
    if !Posts(cfg, st, input) then box
    else Mailbox(box.generation + 1, PostedEvent(input), true, if input.CpiReport? then input.cpi else box.cpi)
  }

  /** An input that acts lands at check `c`. */
  predicate PostsAt(cfg: Config, st: AnimState, arrivals: map<nat, Input>, c: nat)
  {
    c in arrivals && Posts(cfg, st, arrivals[c])
  }

  /**
   * The shared words after the `n` checks from clock `c0` on, the arrival
   * scheduled for each check (if any) landing just before it.
   */
  function Arrive(cfg: Config, st: AnimState, box: Mailbox, arrivals: map<nat, Input>, c0: nat, n: nat): Mailbox
  {
    if n == 0 then box
    else
      var b := Arrive(cfg, st, box, arrivals, c0, n - 1);
      if c0 + n - 1 in arrivals then Ingest(cfg, st, b, arrivals[c0 + n - 1]) else b
  }

  /** The generation counter after the `n` checks from clock `c0` on: one more per acting input. */
  function GenAfter(cfg: Config, st: AnimState, g0: nat, arrivals: map<nat, Input>, c0: nat, n: nat): nat
  {
    if n == 0 then g0
    else GenAfter(cfg, st, g0, arrivals, c0, n - 1) + (if PostsAt(cfg, st, arrivals, c0 + n - 1) then 1 else 0)
  }

  /** The live generation that check `j` (counting from 0 at clock `c0`) compares with its token. */
  function CheckedGen(cfg: Config, st: AnimState, box: Mailbox, arrivals: map<nat, Input>, c0: nat, j: nat): nat
  {
    GenAfter(cfg, st, box.generation, arrivals, c0, j + 1)
  }

  /**
   * The first of checks `j .. limit-1` that finds the generation moved away
   * from `token`, or `limit` when every one of them finds it unchanged.
   */
  function FirstStale(cfg: Config, st: AnimState, box: Mailbox, arrivals: map<nat, Input>, c0: nat,
                      token: nat, j: nat, limit: nat): (k: nat)
    requires j <= limit
    decreases limit - j
    ensures j <= k <= limit
    ensures forall i | j <= i < k :: CheckedGen(cfg, st, box, arrivals, c0, i) == token
    ensures k < limit ==> CheckedGen(cfg, st, box, arrivals, c0, k) != token
  {
    if j == limit then limit
    else if CheckedGen(cfg, st, box, arrivals, c0, j) != token then j
    else FirstStale(cfg, st, box, arrivals, c0, token, j + 1, limit)
  }

  /**
   * `k` is the first of the checks `0 .. limit-1` from clock `c0` that finds
   * the generation moved away from `token`, or `limit` when none does.
   */
  ghost predicate IsFirstStale(cfg: Config, st: AnimState, box: Mailbox, arrivals: map<nat, Input>, c0: nat,
                               token: nat, limit: nat, k: nat)
  {
    && k <= limit
    && (forall i | 0 <= i < k :: CheckedGen(cfg, st, box, arrivals, c0, i) == token)
    && (k < limit ==> CheckedGen(cfg, st, box, arrivals, c0, k) != token)
  }

  /**
   * After a status glance, the handler re-posts the ambient loop's start event
   * and reschedules, unconditionally, as `handle_*_status_event` are written.
   */
  function AfterGlanceAsWritten(st: AnimState, box: Mailbox): (r: Mailbox)
    ensures st == Charging ==> r == box.(event := StartCharging, scheduled := true)
    ensures st == Discharged ==> r == box.(event := StartDischarged, scheduled := true)
    ensures st == Idle ==> r == box
  {
    match st
    case Charging => box.(event := StartCharging, scheduled := true)
    case Discharged => box.(event := StartDischarged, scheduled := true)
    case Idle => box
  }

  /**
   * The resume rule with the missing guard: the ambient start event is
   * re-posted only when no newer event arrived during the glance.
   */
  function AfterGlance(st: AnimState, box: Mailbox, token: nat): (r: Mailbox)
    ensures box.generation != token ==> r == box
    ensures box.generation == token ==> r == AfterGlanceAsWritten(st, box)
  {
    if box.generation != token then box else AfterGlanceAsWritten(st, box)
  }

  // ---------------------------------------------------------------------------
  // Lemmas

  /** `FirstStale` is the one and only index `IsFirstStale` describes. */
  lemma FirstStaleUnique(cfg: Config, st: AnimState, box: Mailbox, arrivals: map<nat, Input>, c0: nat,
                         token: nat, limit: nat, k: nat)
    ensures IsFirstStale(cfg, st, box, arrivals, c0, token, limit, k)
        <==> k == FirstStale(cfg, st, box, arrivals, c0, token, 0, limit)
  {
    var f := FirstStale(cfg, st, box, arrivals, c0, token, 0, limit);
    if IsFirstStale(cfg, st, box, arrivals, c0, token, limit, k) && k != f {
      assert false;
    }
  }

  /** Delivering `a + b` checks' arrivals is delivering `a`, then the next `b`. */
  lemma {:induction false} ArriveSplit(cfg: Config, st: AnimState, box: Mailbox, arrivals: map<nat, Input>,
                                       c0: nat, a: nat, b: nat)
    ensures Arrive(cfg, st, box, arrivals, c0, a + b)
         == Arrive(cfg, st, Arrive(cfg, st, box, arrivals, c0, a), arrivals, c0 + a, b)
  {
    if b > 0 {
      ArriveSplit(cfg, st, box, arrivals, c0, a, b - 1);
    }
  }

  /** The generation counter of the folded mailbox is the count of acting inputs on top of the first. */
  lemma {:induction false} ArriveGen(cfg: Config, st: AnimState, box: Mailbox, arrivals: map<nat, Input>,
                                     c0: nat, n: nat)
    ensures Arrive(cfg, st, box, arrivals, c0, n).generation == GenAfter(cfg, st, box.generation, arrivals, c0, n)
  {
    if n > 0 {
      ArriveGen(cfg, st, box, arrivals, c0, n - 1);
    }
  }

  /**
   * The generation never goes down, and it is unchanged exactly when no
   * acting input landed; in that case nothing else changed either.
   */
  lemma {:induction false} ArriveGeneration(cfg: Config, st: AnimState, box: Mailbox, arrivals: map<nat, Input>,
                                            c0: nat, n: nat)
    ensures Arrive(cfg, st, box, arrivals, c0, n).generation >= box.generation
    ensures Arrive(cfg, st, box, arrivals, c0, n).generation == box.generation
        <==> forall c | c0 <= c < c0 + n :: !PostsAt(cfg, st, arrivals, c)
    ensures (forall c | c0 <= c < c0 + n :: !PostsAt(cfg, st, arrivals, c)) ==>
      Arrive(cfg, st, box, arrivals, c0, n) == box
  {
    if n > 0 {
      ArriveGeneration(cfg, st, box, arrivals, c0, n - 1);
      var last := c0 + n - 1;
      if forall c | c0 <= c < last :: !PostsAt(cfg, st, arrivals, c) {
        assert (forall c | c0 <= c < c0 + n :: !PostsAt(cfg, st, arrivals, c)) <==> !PostsAt(cfg, st, arrivals, last);
      } else {
        assert Arrive(cfg, st, box, arrivals, c0, n - 1).generation > box.generation;
      }
    }
  }

  /** Last writer wins: the pending event is the one written by the latest acting input. */
  lemma {:induction false} ArriveLatestWins(cfg: Config, st: AnimState, box: Mailbox, arrivals: map<nat, Input>,
                                            c0: nat, n: nat, c: nat)
    requires c0 <= c < c0 + n && PostsAt(cfg, st, arrivals, c)
    requires forall d | c < d < c0 + n :: !PostsAt(cfg, st, arrivals, d)
    ensures Arrive(cfg, st, box, arrivals, c0, n).event == PostedEvent(arrivals[c])
    ensures Arrive(cfg, st, box, arrivals, c0, n).scheduled
  {
    if c < c0 + n - 1 {
      ArriveLatestWins(cfg, st, box, arrivals, c0, n - 1, c);
      assert !PostsAt(cfg, st, arrivals, c0 + n - 1);
    }
  }

  /** Once a check has found the token stale, every later check does too. */
  lemma {:induction false} StaleStaysStale(cfg: Config, st: AnimState, box: Mailbox, arrivals: map<nat, Input>,
                                           c0: nat, token: nat, i: nat, j: nat)
    requires token <= box.generation && i <= j
    requires CheckedGen(cfg, st, box, arrivals, c0, i) != token
    ensures CheckedGen(cfg, st, box, arrivals, c0, j) != token
  {
    ArriveSplit(cfg, st, box, arrivals, c0, i + 1, j - i);
    ArriveGeneration(cfg, st, box, arrivals, c0, i + 1);
    ArriveGeneration(cfg, st, Arrive(cfg, st, box, arrivals, c0, i + 1), arrivals, c0 + i + 1, j - i);
    ArriveGen(cfg, st, box, arrivals, c0, i + 1);
    ArriveGen(cfg, st, box, arrivals, c0, j + 1);
  }

  /**
   * With the guard, a glance cut short by a newer event leaves that event
   * pending: the event the latest acting input wrote is what runs next.
   */
  lemma {:induction false} GlanceKeepsLatestEvent(cfg: Config, st: AnimState, box: Mailbox, arrivals: map<nat, Input>,
                               c0: nat, n: nat, c: nat)
    requires c0 <= c < c0 + n && PostsAt(cfg, st, arrivals, c)
    requires forall d | c < d < c0 + n :: !PostsAt(cfg, st, arrivals, d)
    ensures AfterGlance(st, Arrive(cfg, st, box, arrivals, c0, n), box.generation).event == PostedEvent(arrivals[c])
  {
    ArriveGeneration(cfg, st, box, arrivals, c0, n);
    ArriveLatestWins(cfg, st, box, arrivals, c0, n, c);
  }

  /** With the guard, a glance nobody interrupted resumes the ambient loop exactly as written. */
  lemma {:induction false} GlanceResumesWhenQuiet(cfg: Config, st: AnimState, box: Mailbox, arrivals: map<nat, Input>, c0: nat, n: nat)
    requires forall c | c0 <= c < c0 + n :: !PostsAt(cfg, st, arrivals, c)
    ensures AfterGlance(st, Arrive(cfg, st, box, arrivals, c0, n), box.generation) == AfterGlanceAsWritten(st, box)
  {
    ArriveGeneration(cfg, st, box, arrivals, c0, n);
  }

  /**
   * As written, a glance shown while charging and cut short by the charge pin
   * going low re-posts START_CHARGING over the STOP_ANIMATION the pin handler
   * wrote, so the stop is lost.
   */
  lemma AsWrittenLosesStop(cfg: Config)
    ensures var box := Arrive(cfg, Charging, Mailbox(1, StartBatteryStatus, false, 0), map[0 := ChargePin(false)], 0, 1);
      && box.event == StopAnimation
      && box.generation == 2
      && AfterGlanceAsWritten(Charging, box).event == StartCharging
      && AfterGlance(Charging, box, 1).event == StopAnimation
  {
  }
}
