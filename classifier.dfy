/**
 * The status classifiers: threshold cascades that turn a battery level or a
 * CPI reading into a render request (channel mask, 2000 ms).
 */
module Classifier {
  import opened Ints

  /** Build-time thresholds (the `CONFIG_VFX_*_LEVEL_*` Kconfig values). */
  datatype Config = Config(
    batteryHigh: int,
    batteryMid: int,
    batteryCritical: int,
    cpiUltra: int,
    cpiHigh: int,
    cpiMid: int)

  /** A render request: which channels, for how long. */
  datatype Render = Render(mask: bv8, duration: uint16)

  /** Every status render lasts two seconds. */
  const GlanceDuration: uint16 := 2000

  /** One row of a threshold table: a value strictly above `bound` selects `mask`. */
  datatype Tier = Tier(bound: int, mask: bv8)

  /** Index of the first tier whose bound `value` exceeds, or `|table|` when there is none. */
  function TierIndex(table: seq<Tier>, value: int): (k: nat)
    ensures k <= |table|
    ensures forall j | 0 <= j < k :: value <= table[j].bound
    ensures k < |table| ==> value > table[k].bound
  {
    if table == [] then 0
    else if value > table[0].bound then 0
    else 1 + TierIndex(table[1..], value)
  }

  /** Reference reading of a threshold table: first match wins, `fallback` when nothing matches. */
  function Classify(table: seq<Tier>, fallback: bv8, value: int): bv8
  {
    var k := TierIndex(table, value);
    if k < |table| then table[k].mask else fallback
  }

  /** Battery thresholds, high to low. */
  function BatteryTable(cfg: Config): seq<Tier>
  {
    [Tier(cfg.batteryHigh, 0x2), Tier(cfg.batteryMid, 0x3)]
  }

  /** CPI thresholds, high to low. */
  function CpiTable(cfg: Config): seq<Tier>
  {
    [Tier(cfg.cpiUltra, 0x5), Tier(cfg.cpiHigh, 0x2), Tier(cfg.cpiMid, 0x3)]
  }

  /** Mask used when no threshold is exceeded: channel 0 alone. */
  const LowMask: bv8 := 0x1

  /** The cascade of `battery_status_animation`. */
  function BatteryRender(cfg: Config, level: uint8): (r: Render)
    ensures r.duration == GlanceDuration
    ensures r.mask == Classify(BatteryTable(cfg), LowMask, level)
    ensures r.mask != 0 && r.mask & 0x7 == r.mask
  {
    assert BatteryTable(cfg)[1..] == [Tier(cfg.batteryMid, 0x3)];
    if level > cfg.batteryHigh then Render(0x2, 2000)
    else if level > cfg.batteryMid then
      assert TierIndex(BatteryTable(cfg)[1..], level) == 0;
      Render(0x3, 2000)
    else Render(0x1, 2000)
  }

  /** The cascade of `cpi_status_animation`. */
  function CpiRender(cfg: Config, cpi: uint16): (r: Render)
    ensures r.duration == GlanceDuration
    ensures r.mask == Classify(CpiTable(cfg), LowMask, cpi)
    ensures r.mask != 0 && r.mask & 0x7 == r.mask
  {
    assert CpiTable(cfg)[1..] == [Tier(cfg.cpiHigh, 0x2), Tier(cfg.cpiMid, 0x3)];
    assert CpiTable(cfg)[1..][1..] == [Tier(cfg.cpiMid, 0x3)];
    if cpi > cfg.cpiUltra then Render(0x5, 2000)
    else if cpi > cfg.cpiHigh then
      assert TierIndex(CpiTable(cfg)[1..], cpi) == 0;
      Render(0x2, 2000)
    else if cpi > cfg.cpiMid then
      assert TierIndex(CpiTable(cfg)[1..][1..], cpi) == 0;
      assert TierIndex(CpiTable(cfg), cpi) == 2;
      Render(0x3, 2000)
    else
      assert TierIndex(CpiTable(cfg), cpi) == 3;
      Render(0x1, 2000)
  }

  /** A larger value never lands in a later (lower) tier of the same table. */
  lemma {:induction false} TierIndexAntitone(table: seq<Tier>, lo: int, hi: int)
    requires lo <= hi
    ensures TierIndex(table, hi) <= TierIndex(table, lo)
  {
    if table != [] && hi <= table[0].bound {
      TierIndexAntitone(table[1..], lo, hi);
    }
  }

  /** A fuller battery never shows a lower tier than an emptier one. */
  lemma BatteryTierMonotone(cfg: Config, lo: uint8, hi: uint8)
    requires lo <= hi
    ensures TierIndex(BatteryTable(cfg), hi) <= TierIndex(BatteryTable(cfg), lo)
  {
    TierIndexAntitone(BatteryTable(cfg), lo, hi);
  }

  /** A higher CPI never shows a lower tier than a smaller one. */
  lemma CpiTierMonotone(cfg: Config, lo: uint16, hi: uint16)
    requires lo <= hi
    ensures TierIndex(CpiTable(cfg), hi) <= TierIndex(CpiTable(cfg), lo)
  {
    TierIndexAntitone(CpiTable(cfg), lo, hi);
  }
}
