/**
 * The mode slider and the mode-to-configuration resolution of the settings
 * dialog (src/SettingsDialog.cpp). The window procedure and text are not
 * part of this model.
 */
module Settings {
  import opened Win32
  import opened Modes
  import opened Worker
  import opened Tuner

  /** `ModeToPos`: the slider position of a mode, Recommend leftmost. */
  function ModeToPos(m: Mode): (pos: int)
    ensures 0 <= pos <= 3
    ensures pos == 0 <==> m == Recommend
  {
    match m
    case Recommend => 0
    case Light => 1
    case Medium => 2
    case Max => 3
  }

  /** `PosToMode`: the mode at a slider position; positions outside 0..3 clamp to the ends. */
  function PosToMode(pos: int): (m: Mode)
    ensures pos <= 0 ==> m == Recommend
    ensures pos >= 3 ==> m == Max
  {
    if pos <= 0 then Recommend
    else if pos == 1 then Light
    else if pos == 2 then Medium
    else Max
  }

  /** Reading back the slider set from a mode gives that mode. */
  lemma PosToModeOfModeToPos(m: Mode)
    ensures PosToMode(ModeToPos(m)) == m
  {
  }

  /** On the slider's range, the position of the mode at a position is that position. */
  lemma ModeToPosOfPosToMode(pos: int)
    requires 0 <= pos <= 3
    ensures ModeToPos(PosToMode(pos)) == pos
  {
  }

  /**
   * The slider order is the enumeration rotated by one; the slider position
   * is not the stored enumerator value.
   */
  lemma PositionIsRotatedValue(m: Mode)
    ensures ModeToPos(m) == (ModeValue(m) + 1) % 4
    ensures m != Max ==> ModeToPos(m) != ModeValue(m)
  {
  }

  /**
   * `RecommendModeForDevice`: Light on battery; Max on a strong processor
   * with at least 16 GiB; Medium with at least four processors and 8 GiB;
   * Light otherwise.
   */
  function RecommendModeForDevice(p: DeviceProfile): (m: Mode)
    ensures m != Recommend
    ensures p.onBattery ==> m == Light
    ensures m == Max <==> !p.onBattery && StrongCpu(p) && RamGB(p) >= 16
    ensures m == Medium <==>
      !p.onBattery && !(StrongCpu(p) && RamGB(p) >= 16) && p.logicalProcessors >= 4 && RamGB(p) >= 8
  {
    if p.onBattery then Light
    else if StrongCpu(p) && RamGB(p) >= 16 then Max
    else if p.logicalProcessors >= 4 && RamGB(p) >= 8 then Medium
    else Light
  }

  /**
   * `ConfigForMode`: Recommend is resolved on a fresh reading of the system
   * (`live`), the same rule as RecommendModeForDevice; the configuration
   * itself comes from the tuner's cache, first filled from `first` and
   * the calibration benchmarks `probes`. The resolved mode is returned too.
   */
  method ConfigForMode(mode: Mode, live: SystemInfo, first: SystemInfo, probes: Probes, cache: TunerCache)
    returns (cfg: Config, resolved: Mode)
    requires cache.Valid()
    modifies cache
    ensures cache.Valid() && cache.cached
    ensures resolved != Recommend
    ensures mode == Recommend ==> resolved == RecommendModeForDevice(CollectProfile(live))
    ensures mode != Recommend ==> resolved == mode
    ensures cfg == ComputeConfig(resolved, cache.profile, cache.calibration)
    ensures old(cache.cached) ==> cache.profile == old(cache.profile) && cache.calibration == old(cache.calibration)
    ensures !old(cache.cached) ==>
      cache.profile == CollectProfile(first) && cache.calibration == Calibrate(cache.profile, probes)
  {
    resolved := mode;
    if mode == Recommend {
      var p := CollectProfile(live);
      var ramGB := p.ramBytes / 0x4000_0000;
      var strongCPU := p.logicalProcessors >= 8 || p.cpuMHz >= 3200;
      resolved := Light;
      if !p.onBattery {
        if strongCPU && ramGB >= 16 {
          resolved := Max;
        } else if p.logicalProcessors >= 4 && ramGB >= 8 {
          resolved := Medium;
        } else {
          resolved := Light;
        }
      } else {
        resolved := Light;
      }
    }
    cfg := cache.ComputeConfigCached(resolved, first, probes);
  }
}
