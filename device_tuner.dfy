/**
 * The device tuner (include/DeviceTuner.h, src/DeviceTuner.cpp): the
 * device profile, the calibration decisions, the mapping from a mode to a
 * worker configuration, the adjustment of a configuration to the current
 * power and affinity state, and the process-wide cache of profile and
 * calibration.
 *
 * System queries are inputs: `SystemInfo` holds what the Win32 queries of
 * `CollectProfile` return, and `Probes` the p95 overshoots the calibration
 * benchmarks measure.
 */
module Tuner {
  import opened Win32
  import Stats
  import opened Worker
  import opened Modes

  // ---------------------------------------------------------------------
  // Mask arithmetic
  // ---------------------------------------------------------------------

  function Pow2(k: nat): (r: nat)
    ensures r >= 1
  {
    if k == 0 then 1 else 2 * Pow2(k - 1)
  }

  /** The lowest set bit of m, 0 when m is 0. */
  function LowBit(m: nat): (r: nat)
    ensures r <= m
    ensures r == 0 <==> m == 0
    decreases m
  {
    if m == 0 then 0 else if m % 2 == 1 then 1 else 2 * LowBit(m / 2)
  }

  /** LowBit(m) is a single bit of m with no bit of m below it. */
  lemma {:induction false} LowBitIsLowestBit(m: nat)
    requires m != 0
    ensures IsPowerOfTwo(LowBit(m))
    ensures IsSubmask(LowBit(m), m)
    ensures BitAnd(m, LowBit(m) - 1) == 0
    decreases m
  {
    if m % 2 == 1 {
      assert LowBit(m) == 1;
      assert BitAnd(1, m) == 2 * BitAnd(0, m / 2) + 1;
    } else {
      var h := LowBit(m / 2);
      LowBitIsLowestBit(m / 2);
      assert LowBit(m) == 2 * h;
      assert (2 * h) / 2 == h && (2 * h) % 2 == 0;
      assert BitAnd(2 * h, m) == 2 * BitAnd(h, m / 2);
      assert (2 * h - 1) / 2 == h - 1;
      assert BitAnd(m, 2 * h - 1) == 2 * BitAnd(m / 2, h - 1);
    }
  }

  /** The highest set bit of m, 0 when m is 0. */
  function HighBit(m: nat): (r: nat)
    ensures r <= m
    ensures r == 0 <==> m == 0
    decreases m
  {
    if m <= 1 then m else 2 * HighBit(m / 2)
  }

  /** HighBit(m) is a single bit of m, and m is below twice it: the largest power of two <= m. */
  lemma {:induction false} HighBitIsHighestBit(m: nat)
    requires m != 0
    ensures IsPowerOfTwo(HighBit(m))
    ensures IsSubmask(HighBit(m), m)
    ensures m < 2 * HighBit(m)
    decreases m
  {
    if m >= 2 {
      HighBitIsHighestBit(m / 2);
    }
  }

  /** q and its complement within k bits share no bit. */
  lemma {:induction false} ComplementDisjoint(q: nat, k: nat)
    requires q < Pow2(k)
    ensures BitAnd(q, Pow2(k) - 1 - q) == 0
    decreases k
  {
    if k > 0 && q != 0 && Pow2(k) - 1 - q != 0 {
      var c := Pow2(k) - 1 - q;
      assert c / 2 == Pow2(k - 1) - 1 - q / 2;
      assert q % 2 != c % 2;
      ComplementDisjoint(q / 2, k - 1);
    }
  }

  /** In w-bit arithmetic, m AND (-m) is the lowest set bit of m. */
  lemma {:induction false} NegationIsolatesLowBit(m: nat, w: nat)
    requires 0 < m < Pow2(w)
    ensures BitAnd(m, Pow2(w) - m) == LowBit(m)
    decreases w
  {
    var c := Pow2(w) - m;
    if m % 2 == 1 {
      assert c / 2 == Pow2(w - 1) - 1 - m / 2;
      ComplementDisjoint(m / 2, w - 1);
    } else {
      assert c / 2 == Pow2(w - 1) - m / 2;
      NegationIsolatesLowBit(m / 2, w - 1);
    }
  }

  /** 2^(a+b) == 2^a * 2^b */
  lemma {:induction false} Pow2Add(a: nat, b: nat)
    ensures Pow2(a + b) == Pow2(a) * Pow2(b)
  {
    if a > 0 {
      Pow2Add(a - 1, b);
      assert Pow2(a + b) == 2 * Pow2(a - 1 + b);
    }
  }

  lemma Pow2Of64()
    ensures Pow2(64) == TWO_TO_THE_64
  {
    assert Pow2(4) == 16;
    Pow2Add(4, 4);
    assert Pow2(8) == 0x100;
    Pow2Add(8, 8);
    assert Pow2(16) == 0x1_0000;
    Pow2Add(16, 16);
    assert Pow2(32) == 0x1_0000_0000;
    Pow2Add(32, 32);
  }

  /** The same for a DWORD_PTR, negated modulo 2^64. */
  lemma NegationIsolatesLowBit64(m: u64)
    ensures BitAnd(m, Negate64(m)) == LowBit(m)
  {
    if m != 0 {
      Pow2Of64();
      NegationIsolatesLowBit(m, 64);
    }
  }

  /** `LowestBit(mask)`: `mask & (~mask + 1)`, the lowest set bit of the mask. */
  function LowestBit(mask: u64): (r: u64)
    ensures r == LowBit(mask)
  {
    NegationIsolatesLowBit64(mask);
    BitAnd(mask, Negate64(mask))
  }

  /** One shift of the `HighestBit` loop: the remaining bits move into hb. */
  lemma HighBitStep(target: nat, hb: nat, m: nat)
    requires m >= 1 && hb >= 1 && target == hb * (2 * HighBit(m))
    ensures 2 * hb <= target
    ensures m / 2 == 0 ==> target == 2 * hb
    ensures m / 2 != 0 ==> target == (2 * hb) * (2 * HighBit(m / 2))
  {
    var h := HighBit(m);
    DoubleBelow(hb, h);
    if m / 2 != 0 {
      DoubleRegroup(hb, HighBit(m / 2));
    }
  }

  lemma DoubleBelow(hb: nat, h: nat)
    requires h >= 1
    ensures 2 * hb <= hb * (2 * h)
  {
    assert hb * (2 * h) == 2 * hb + 2 * (hb * (h - 1));
  }

  lemma DoubleRegroup(hb: nat, h: nat)
    ensures hb * (2 * (2 * h)) == (2 * hb) * (2 * h)
  {
  }

  /**
   * `HighestBit(mask)`: 0 for 0, otherwise start from bit 0 and double once
   * for every shift of the mask that leaves it non-zero.
   */
  method HighestBit(mask: u64) returns (hb: u64)
    ensures hb == HighBit(mask)
  {
    if mask == 0 {
      return 0;
    }
    var m: nat := mask / 2;
    hb := 1;
    while m != 0
      invariant 1 <= hb <= mask
      invariant m == 0 ==> HighBit(mask) == hb
      invariant m != 0 ==> HighBit(mask) == hb * (2 * HighBit(m))
      decreases m
    {
      HighBitStep(HighBit(mask), hb, m);
      hb := hb * 2;
      m := m / 2;
    }
  }

  // ---------------------------------------------------------------------
  // Profile
  // ---------------------------------------------------------------------

  /** `DeviceProfile`. */
  datatype DeviceProfile = DeviceProfile(
    hasBattery: bool,
    onBattery: bool,
    logicalProcessors: u32,
    activeProcessorGroups: u32,
    cpuMHz: u32,
    ramBytes: u64,
    timerMinMs: u32,
    timerMaxMs: u32,
    processAffinityMask: u64,
    systemAffinityMask: u64)

  /** The default-initialised `DeviceProfile{}`. */
  const DefaultProfile: DeviceProfile := DeviceProfile(false, false, 0, 0, 0, 0, 1, 15, 0, 0)

  /** What `GetSystemPowerStatus` reports. */
  datatype PowerStatus = PowerStatus(acLineStatus: u8, batteryFlag: u8)

  /** What the Win32 queries of `CollectProfile` return; None where a query fails. */
  datatype SystemInfo = SystemInfo(
    power: Option<PowerStatus>,
    processorGroups: u32,
    processors: u32,
    totalPhys: Option<u64>,
    registryMHz: Option<u32>,
    timerCaps: Option<(u32, u32)>,
    affinity: Option<(u64, u64)>)

  /** `ReadTimerCaps`: the device's period range, or 1..15 when the query fails. */
  function ReadTimerCaps(caps: Option<(u32, u32)>): (r: (u32, u32))
    ensures caps.None? ==> r == (1, 15)
    ensures caps.Some? ==> r == caps.value
  {
    if caps.Some? then caps.value else (1, 15)
  }

  /**
   * `CollectProfile`: the power state, processor count, memory, clock and
   * timer range of the device and the affinity masks of the process. A zero
   * timer bound reads as 1 (minimum) or 15 (maximum); a failed query keeps
   * the field's default.
   */
  function CollectProfile(sys: SystemInfo): (p: DeviceProfile)
    ensures p.timerMinMs >= 1 && p.timerMaxMs >= 1
    ensures sys.power.None? ==> !p.hasBattery && !p.onBattery
    ensures sys.power.Some? ==>
      (p.hasBattery <==> sys.power.value.batteryFlag != 128) && (p.onBattery <==> sys.power.value.acLineStatus == 0)
    ensures p.logicalProcessors == sys.processors && p.activeProcessorGroups == sys.processorGroups
    ensures p.ramBytes == (if sys.totalPhys.Some? then sys.totalPhys.value else 0)
    ensures p.cpuMHz == (if sys.registryMHz.Some? then sys.registryMHz.value else 0)
    ensures sys.timerCaps.Some? && sys.timerCaps.value.0 != 0 ==> p.timerMinMs == sys.timerCaps.value.0
    ensures sys.timerCaps.Some? && sys.timerCaps.value.1 != 0 ==> p.timerMaxMs == sys.timerCaps.value.1
    ensures sys.timerCaps.Some? && sys.timerCaps.value.0 == 0 ==> p.timerMinMs == 1
    ensures sys.timerCaps.Some? && sys.timerCaps.value.1 == 0 ==> p.timerMaxMs == 15
    ensures sys.timerCaps.None? ==> p.timerMinMs == 1 && p.timerMaxMs == 15
    ensures sys.affinity.Some? ==> p.processAffinityMask == sys.affinity.value.0 && p.systemAffinityMask == sys.affinity.value.1
    ensures sys.affinity.None? ==> p.processAffinityMask == 0 && p.systemAffinityMask == 0
  {
    var caps := ReadTimerCaps(sys.timerCaps);
    DeviceProfile(
      hasBattery := sys.power.Some? && sys.power.value.batteryFlag != 128,
      onBattery := sys.power.Some? && sys.power.value.acLineStatus == 0,
      logicalProcessors := sys.processors,
      activeProcessorGroups := sys.processorGroups,
      cpuMHz := if sys.registryMHz.Some? then sys.registryMHz.value else 0,
      ramBytes := if sys.totalPhys.Some? then sys.totalPhys.value else DefaultProfile.ramBytes,
      timerMinMs := if caps.0 == 0 then 1 else caps.0,
      timerMaxMs := if caps.1 == 0 then 15 else caps.1,
      processAffinityMask := if sys.affinity.Some? then sys.affinity.value.0 else DefaultProfile.processAffinityMask,
      systemAffinityMask := if sys.affinity.Some? then sys.affinity.value.1 else DefaultProfile.systemAffinityMask)
  }

  // ---------------------------------------------------------------------
  // Calibration
  // ---------------------------------------------------------------------

  /** `CalibrationResult`. */
  datatype CalibrationResult = CalibrationResult(
    measured: bool,
    timerBoostHelps: bool,
    noBoostUs: real,
    boostUs: real,
    affinityHelps: bool,
    bestAffinityMask: u64,
    bestCoreUs: real,
    defaultCoreUs: real)

  /** The default-initialised `CalibrationResult{}`. */
  const DefaultCalibration: CalibrationResult := CalibrationResult(false, false, 0.0, 0.0, false, 0, 0.0, 0.0)

  /** The sleep overshoot of one `Sleep(1)` that took `elapsed` microseconds, clamped at 0. */
  function Overshoot(elapsed: real): (r: real)
    ensures r >= 0.0 && r >= elapsed - 1000.0
    ensures r == 0.0 || r == elapsed - 1000.0
  {
    if elapsed - 1000.0 < 0.0 then 0.0 else elapsed - 1000.0
  }

  function Overshoots(elapsed: seq<real>): (r: seq<real>)
    ensures |r| == |elapsed|
    ensures forall i :: 0 <= i < |r| ==> r[i] == Overshoot(elapsed[i])
  {
    seq(|elapsed|, i requires 0 <= i < |elapsed| => Overshoot(elapsed[i]))
  }

  /**
   * `MeasureSleepP95OvershootUs` over the measured durations of the
   * `Sleep(1)` calls: collect the overshoots, sort them and take the
   * nearest-rank 95th percentile. The source needs at least one sample.
   */
  method MeasureSleepP95OvershootUs(elapsed: seq<real>) returns (p95: real)
    requires |elapsed| >= 1
    ensures p95 == Stats.Percentile(Overshoots(elapsed), 95, 100)
    ensures p95 in Overshoots(elapsed) && p95 >= 0.0
  {
    var overs: seq<real> := [];
    var i := 0;
    while i < |elapsed|
      invariant 0 <= i <= |elapsed|
      invariant overs == Overshoots(elapsed[..i])
    {
      var over := elapsed[i] - 1000.0;
      if over < 0.0 {
        over := 0.0;
      }
      overs := overs + [over];
      i := i + 1;
    }
    assert elapsed[..i] == elapsed;
    var sorted := Stats.Sort(overs);
    var idx := (95 * |overs| + 99) / 100 - 1;
    if idx >= |overs| {
      idx := |overs| - 1;
    }
    p95 := sorted[idx];
    Stats.PercentileBetween(overs, 95, 100);
  }

  /** The p95 overshoots the calibration benchmarks measure, in microseconds. */
  datatype Probes = Probes(
    /** on the default cores at the default timer period */
    defaultCoreUs: real,
    /** with the timer period raised to the device minimum */
    boostedUs: real,
    /** pinned to the lowest available core */
    lowCoreUs: real,
    /** pinned to the highest available core */
    highCoreUs: real)

  /** The cores the process may use: its own mask, or the system's when that is 0. */
  function AvailableMask(procMask: u64, sysMask: u64): u64 {
    if procMask != 0 then procMask else sysMask
  }

  /** The affinity benchmark runs only when the lowest and highest available cores differ. */
  predicate AffinityProbed(avail: u64) {
    LowestBit(avail) != 0 && HighBit(avail) != 0 && LowestBit(avail) != HighBit(avail)
  }

  /**
   * `Calibrate`. On battery nothing is measured. Otherwise the timer boost
   * helps when it cuts the p95 overshoot by at least 500 us, and, when there
   * are two distinct extreme cores, the better of them is the best core and
   * pinning helps when it cuts the overshoot by at least 300 us.
   */
  function Calibrate(p: DeviceProfile, probes: Probes): (r: CalibrationResult)
    ensures r.measured
    ensures p.onBattery ==> r == DefaultCalibration.(measured := true)
    ensures !p.onBattery ==> r.noBoostUs == r.defaultCoreUs == probes.defaultCoreUs && r.boostUs == probes.boostedUs
    ensures !p.onBattery ==> (r.timerBoostHelps <==> probes.defaultCoreUs - probes.boostedUs >= 500.0)
    ensures r.bestAffinityMask != 0 ==>
      IsPowerOfTwo(r.bestAffinityMask)
      && IsSubmask(r.bestAffinityMask, AvailableMask(p.processAffinityMask, p.systemAffinityMask))
    ensures var avail := AvailableMask(p.processAffinityMask, p.systemAffinityMask);
      !p.onBattery && AffinityProbed(avail) ==>
        && r.bestAffinityMask == (if probes.lowCoreUs <= probes.highCoreUs then LowestBit(avail) else HighBit(avail))
        && r.bestCoreUs == (if probes.lowCoreUs <= probes.highCoreUs then probes.lowCoreUs else probes.highCoreUs)
        && (r.affinityHelps <==> probes.defaultCoreUs - r.bestCoreUs >= 300.0)
    ensures var avail := AvailableMask(p.processAffinityMask, p.systemAffinityMask);
      p.onBattery || !AffinityProbed(avail) ==>
        r.bestAffinityMask == 0 && !r.affinityHelps && r.bestCoreUs == 0.0
  {
    if p.onBattery then
      DefaultCalibration.(measured := true, timerBoostHelps := false, affinityHelps := false)
    else
      var r := DefaultCalibration.(defaultCoreUs := probes.defaultCoreUs);
      var r := r.(noBoostUs := r.defaultCoreUs);
      var r := r.(boostUs := probes.boostedUs);
      var r := r.(timerBoostHelps := r.noBoostUs - r.boostUs >= 500.0);
      var avail := AvailableMask(p.processAffinityMask, p.systemAffinityMask);
      var low := LowestBit(avail);
      var high := HighBit(avail);
      var r := if low != 0 && high != 0 && low != high then
          var r := if probes.lowCoreUs <= probes.highCoreUs then
              r.(bestAffinityMask := low, bestCoreUs := probes.lowCoreUs)
            else
              r.(bestAffinityMask := high, bestCoreUs := probes.highCoreUs);
          BestCoreIsAvailable(avail);
          r.(affinityHelps := r.defaultCoreUs - r.bestCoreUs >= 300.0)
        else r;
      r.(measured := true)
  }

  /** Both extreme cores of a non-empty mask are single bits of it. */
  lemma BestCoreIsAvailable(avail: u64)
    ensures avail != 0 ==> IsPowerOfTwo(LowestBit(avail)) && IsSubmask(LowestBit(avail), avail)
    ensures avail != 0 ==> IsPowerOfTwo(HighBit(avail)) && IsSubmask(HighBit(avail), avail)
  {
    if avail != 0 {
      LowBitIsLowestBit(avail);
      HighBitIsHighestBit(avail);
    }
  }

  // ---------------------------------------------------------------------
  // Configuration
  // ---------------------------------------------------------------------

  /** `max(1, timerMinMs)`, the shortest timer period the device supports. */
  function SafeTimerMs(p: DeviceProfile): (ms: u32)
    ensures ms >= 1 && ms >= p.timerMinMs
    ensures ms == p.timerMinMs || ms == 1
  {
    if p.timerMinMs > 1 then p.timerMinMs else 1
  }

  /** Whole GiB of memory (`ramBytes / 2^30`, rounded down). */
  function RamGB(p: DeviceProfile): nat {
    p.ramBytes / 0x4000_0000
  }

  /** At least 8 logical processors or a clock of at least 3200 MHz. */
  predicate StrongCpu(p: DeviceProfile) {
    p.logicalProcessors >= 8 || p.cpuMHz >= 3200
  }

  /**
   * `ComputeConfig`: the worker configuration for a mode on a device with a
   * calibration. On battery everything is off. Light raises only the thread
   * priority; Medium and Max add the timer boost and core pinning where the
   * calibration measured that they help; Max also uses TIME_CRITICAL on
   * more than four processors and the HIGH class on a strong machine with
   * 8 GiB when the boost is on. Recommend matches no case.
   */
  function ComputeConfig(mode: Mode, p: DeviceProfile, c: CalibrationResult): (cfg: Config)
    ensures cfg.timerResolutionMs == SafeTimerMs(p)
    ensures p.onBattery ==>
      !cfg.enableTimerBoost && !cfg.enableProcessPriority && !cfg.enableThreadPriority && !cfg.enableAffinity
    ensures cfg.enableAffinity ==>
      c.measured && c.affinityHelps && cfg.affinityMask == c.bestAffinityMask != 0
    ensures cfg.enableTimerBoost ==> c.measured && c.timerBoostHelps && !p.onBattery
    ensures cfg.enableProcessPriority ==>
      mode == Max && cfg.enableTimerBoost && StrongCpu(p) && RamGB(p) >= 8 && cfg.processPriority == HIGH_PRIORITY_CLASS
    ensures cfg.enableThreadPriority <==> !p.onBattery && mode != Recommend
  {
    var cfg := DefaultConfig;
    var ramGB := RamGB(p);
    var strongCPU := StrongCpu(p);
    var safeTimerMs := SafeTimerMs(p);
    if p.onBattery then
      cfg.(enableTimerBoost := false, enableProcessPriority := false, enableThreadPriority := false,
           enableAffinity := false, timerResolutionMs := safeTimerMs,
           processPriority := HIGH_PRIORITY_CLASS, threadPriority := THREAD_PRIORITY_HIGHEST)
    else
      var cfg := match mode
        case Light =>
          cfg.(enableThreadPriority := true, threadPriority := THREAD_PRIORITY_HIGHEST,
               enableProcessPriority := false, enableTimerBoost := false,
               timerResolutionMs := safeTimerMs, enableAffinity := false)
        case Medium =>
          cfg.(enableThreadPriority := true, threadPriority := THREAD_PRIORITY_HIGHEST,
               enableProcessPriority := false,
               enableTimerBoost := c.measured && c.timerBoostHelps, timerResolutionMs := safeTimerMs,
               enableAffinity := c.measured && c.affinityHelps && c.bestAffinityMask != 0,
               affinityMask := c.bestAffinityMask)
        case Max =>
          var boost := c.measured && c.timerBoostHelps;
          cfg.(enableThreadPriority := true,
               threadPriority :=
                 if p.logicalProcessors <= 4 then THREAD_PRIORITY_HIGHEST else THREAD_PRIORITY_TIME_CRITICAL,
               enableTimerBoost := boost, timerResolutionMs := safeTimerMs,
               enableAffinity := c.measured && c.affinityHelps && c.bestAffinityMask != 0,
               affinityMask := c.bestAffinityMask,
               enableProcessPriority := strongCPU && ramGB >= 8 && boost,
               processPriority := HIGH_PRIORITY_CLASS)
        case Recommend => cfg;
      cfg.(timerResolutionMs := if cfg.timerResolutionMs >= safeTimerMs then cfg.timerResolutionMs else safeTimerMs)
  }

  /** On battery every mode gives the same configuration: all off, HIGHEST kept as the level. */
  lemma ComputeConfigOnBattery(mode: Mode, p: DeviceProfile, c: CalibrationResult)
    requires p.onBattery
    ensures ComputeConfig(mode, p, c) == DefaultConfig.(timerResolutionMs := SafeTimerMs(p),
                                                       threadPriority := THREAD_PRIORITY_HIGHEST)
  {
  }

  /** Recommend is not resolved here: it yields the default configuration. */
  lemma ComputeConfigRecommend(p: DeviceProfile, c: CalibrationResult)
    requires !p.onBattery
    ensures ComputeConfig(Recommend, p, c) == DefaultConfig.(timerResolutionMs := SafeTimerMs(p))
  {
  }

  /** Light: thread priority at HIGHEST and nothing else. */
  lemma ComputeConfigLight(p: DeviceProfile, c: CalibrationResult)
    requires !p.onBattery
    ensures var cfg := ComputeConfig(Light, p, c);
      cfg.enableThreadPriority && cfg.threadPriority == THREAD_PRIORITY_HIGHEST
      && !cfg.enableTimerBoost && !cfg.enableAffinity && !cfg.enableProcessPriority
  {
  }

  /** Medium and Max follow the calibration for the timer boost and pinning. */
  lemma ComputeConfigMeasured(mode: Mode, p: DeviceProfile, c: CalibrationResult)
    requires !p.onBattery && (mode == Medium || mode == Max)
    ensures var cfg := ComputeConfig(mode, p, c);
      && (cfg.enableTimerBoost <==> c.measured && c.timerBoostHelps)
      && (cfg.enableAffinity <==> c.measured && c.affinityHelps && c.bestAffinityMask != 0)
      && cfg.affinityMask == c.bestAffinityMask
      && cfg.enableThreadPriority
  {
  }

  /**
   * Max: TIME_CRITICAL above four processors, HIGHEST otherwise; the HIGH
   * class exactly on a strong machine with 8 GiB when the boost is on.
   */
  lemma ComputeConfigMax(p: DeviceProfile, c: CalibrationResult)
    requires !p.onBattery
    ensures var cfg := ComputeConfig(Max, p, c);
      && cfg.threadPriority == (if p.logicalProcessors <= 4 then THREAD_PRIORITY_HIGHEST else THREAD_PRIORITY_TIME_CRITICAL)
      && (cfg.enableProcessPriority <==> StrongCpu(p) && RamGB(p) >= 8 && cfg.enableTimerBoost)
  {
  }

  /**
   * `NormalizeForCurrentState` with the live profile and the live process
   * and system affinity masks: on battery drop the boost, pinning and
   * process class and lower TIME_CRITICAL to HIGHEST; keep a boosted period
   * at or above the device minimum; drop a pin to cores the process may not
   * use.
   */
  function NormalizeForCurrentState(cfg: Config, live: DeviceProfile, procMask: u64, sysMask: u64): (r: Config)
    ensures live.onBattery ==> !r.enableTimerBoost && !r.enableAffinity && !r.enableProcessPriority
    ensures live.onBattery ==> (r.threadPriority ==
      if cfg.threadPriority == THREAD_PRIORITY_TIME_CRITICAL then THREAD_PRIORITY_HIGHEST else cfg.threadPriority)
    ensures !live.onBattery ==>
      && r.threadPriority == cfg.threadPriority
      && r.enableTimerBoost == cfg.enableTimerBoost
      && r.enableProcessPriority == cfg.enableProcessPriority
    ensures r.enableTimerBoost ==>
      r.timerResolutionMs == (if cfg.timerResolutionMs >= SafeTimerMs(live) then cfg.timerResolutionMs else SafeTimerMs(live))
    ensures !r.enableTimerBoost ==> r.timerResolutionMs == cfg.timerResolutionMs
    ensures r.enableAffinity && r.affinityMask != 0 ==> BitAnd(r.affinityMask, AvailableMask(procMask, sysMask)) != 0
    ensures r.enableAffinity ==> r.affinityMask == cfg.affinityMask
    ensures (!live.onBattery && cfg.enableAffinity
             && (cfg.affinityMask == 0 || BitAnd(cfg.affinityMask, AvailableMask(procMask, sysMask)) != 0))
      ==> r.enableAffinity && r.affinityMask == cfg.affinityMask
    ensures !r.enableAffinity && r.affinityMask != cfg.affinityMask ==> r.affinityMask == 0
    ensures r.enableThreadPriority == cfg.enableThreadPriority && r.processPriority == cfg.processPriority
  {
    var cfg := if live.onBattery then
        cfg.(enableTimerBoost := false, enableAffinity := false, enableProcessPriority := false,
             threadPriority :=
               if cfg.threadPriority == THREAD_PRIORITY_TIME_CRITICAL then THREAD_PRIORITY_HIGHEST else cfg.threadPriority)
      else cfg;
    var safe := SafeTimerMs(live);
    var cfg := if cfg.enableTimerBoost then
        cfg.(timerResolutionMs := if cfg.timerResolutionMs >= safe then cfg.timerResolutionMs else safe)
      else cfg;
    if cfg.enableAffinity && cfg.affinityMask != 0 && BitAnd(cfg.affinityMask, AvailableMask(procMask, sysMask)) == 0 then
      cfg.(enableAffinity := false, affinityMask := 0)
    else cfg
  }

  /** Normalising twice against the same live state changes nothing more. */
  lemma NormalizeIdempotent(cfg: Config, live: DeviceProfile, procMask: u64, sysMask: u64)
    ensures var once := NormalizeForCurrentState(cfg, live, procMask, sysMask);
      NormalizeForCurrentState(once, live, procMask, sysMask) == once
  {
  }

  /**
   * A configuration computed from a profile and its own calibration is
   * already normal for that state: the pinned core is one the process may
   * use and the period is at the device minimum.
   */
  lemma ComputedIsNormal(mode: Mode, p: DeviceProfile, probes: Probes)
    ensures var cfg := ComputeConfig(mode, p, Calibrate(p, probes));
      NormalizeForCurrentState(cfg, p, p.processAffinityMask, p.systemAffinityMask) == cfg
  {
    var c := Calibrate(p, probes);
    var cfg := ComputeConfig(mode, p, c);
    if cfg.enableAffinity && cfg.affinityMask != 0 {
      BitAndSelf(c.bestAffinityMask);
    }
  }

  // ---------------------------------------------------------------------
  // The process-wide cache
  // ---------------------------------------------------------------------

  /** `g_cached`, `g_profile` and `g_calib`: the profile and calibration, computed once. */
  class TunerCache {
    var cached: bool
    var profile: DeviceProfile
    var calibration: CalibrationResult
    /** The benchmark results the calibration was computed from. */
    ghost var probes: Probes

    /** Once filled, the cache holds a profile and its own calibration. */
    ghost predicate Valid()
      reads this
    {
      cached ==> calibration == Calibrate(profile, probes)
    }

    /** Program start: nothing cached, both values at their defaults. */
    constructor ()
      ensures Valid() && !cached && profile == DefaultProfile && calibration == DefaultCalibration
    {
      cached := false;
      profile := DefaultProfile;
      calibration := DefaultCalibration;
      probes := Probes(0.0, 0.0, 0.0, 0.0);
    }

    /** `EnsureCached`: on first use collect the profile and calibrate; afterwards nothing. */
    method EnsureCached(sys: SystemInfo, measured: Probes)
      requires Valid()
      modifies this
      ensures Valid() && cached
      ensures old(cached) ==> profile == old(profile) && calibration == old(calibration)
      ensures !old(cached) ==> profile == CollectProfile(sys) && calibration == Calibrate(profile, measured)
    {
      if cached {
        return;
      }
      profile := CollectProfile(sys);
      calibration := Calibrate(profile, measured);
      probes := measured;
      cached := true;
    }

    /** `Profile()` */
    method Profile(sys: SystemInfo, measured: Probes) returns (p: DeviceProfile)
      requires Valid()
      modifies this
      ensures Valid() && cached && p == profile
      ensures old(cached) ==> profile == old(profile) && calibration == old(calibration)
      ensures !old(cached) ==> profile == CollectProfile(sys) && calibration == Calibrate(profile, measured)
    {
      EnsureCached(sys, measured);
      p := profile;
    }

    /** `Calibration()` */
    method Calibration(sys: SystemInfo, measured: Probes) returns (c: CalibrationResult)
      requires Valid()
      modifies this
      ensures Valid() && cached && c == calibration
      ensures old(cached) ==> profile == old(profile) && calibration == old(calibration)
      ensures !old(cached) ==> profile == CollectProfile(sys) && calibration == Calibrate(profile, measured)
    {
      EnsureCached(sys, measured);
      c := calibration;
    }

    /** `ComputeConfigCached`: ComputeConfig on the cached profile and calibration. */
    method ComputeConfigCached(mode: Mode, sys: SystemInfo, measured: Probes) returns (cfg: Config)
      requires Valid()
      modifies this
      ensures Valid() && cached && cfg == ComputeConfig(mode, profile, calibration)
      ensures old(cached) ==> profile == old(profile) && calibration == old(calibration)
      ensures !old(cached) ==> profile == CollectProfile(sys) && calibration == Calibrate(profile, measured)
    {
      EnsureCached(sys, measured);
      cfg := ComputeConfig(mode, profile, calibration);
    }
  }

  /** Later readings of the system do not reach the cache: every caller sees the first profile. */
  method CachedProfileIsStable(sys1: SystemInfo, probes1: Probes, sys2: SystemInfo, probes2: Probes)
    returns (first: DeviceProfile, second: DeviceProfile, c1: CalibrationResult, c2: CalibrationResult)
    ensures first == second == CollectProfile(sys1)
    ensures c1 == c2 == Calibrate(CollectProfile(sys1), probes1)
  {
    var cache := new TunerCache();
    first := cache.Profile(sys1, probes1);
    c1 := cache.Calibration(sys1, probes1);
    second := cache.Profile(sys2, probes2);
    c2 := cache.Calibration(sys2, probes2);
  }
}
