/**
 * Persistence of the user's settings under the registry key
 * `HKCU\Software\InputLatencyOptimizer` (src/ConfigStore.cpp,
 * include/ConfigStore.h). The key is a map from value name to a typed
 * value; a read that fails leaves its output variable as it was.
 */
module Store {
  import opened Win32
  import opened Worker

  /** A registry value of one of the two types the store uses. */
  datatype RegValue = Dword(d: u32) | Qword(q: u64)

  /** The names of the values the store reads and writes. */
  datatype Name =
    | Enabled | Mode | AppliedMode | HasConfig
    | TimerBoost | TimerMs | ProcEnable | ProcPrio | ThrEnable | ThrPrio | AffEnable | AffMask

  /** The registry value name of each. */
  function Spelling(n: Name): string {
    match n
    case Enabled => "Enabled"
    case Mode => "Mode"
    case AppliedMode => "AppliedMode"
    case HasConfig => "A_HasConfig"
    case TimerBoost => "A_TimerBoost"
    case TimerMs => "A_TimerMs"
    case ProcEnable => "A_ProcEnable"
    case ProcPrio => "A_ProcPrio"
    case ThrEnable => "A_ThrEnable"
    case ThrPrio => "A_ThrPrio"
    case AffEnable => "A_AffEnable"
    case AffMask => "A_AffMask"
  }

  /** Distinct names are distinct registry values, so a map keyed by Name models the key. */
  lemma SpellingInjective(a: Name, b: Name)
    ensures Spelling(a) == Spelling(b) ==> a == b
  {
    if a != b {
      var sa, sb := Spelling(a), Spelling(b);
      assert |sa| != |sb| || sa[|sa| - 1] != sb[|sb| - 1] || sa[|sa| - 2] != sb[|sb| - 2] || sa[2] != sb[2];
    }
  }

  /** The values held under the key, by name. */
  type Key = map<Name, RegValue>

  /** `StoredConfig`. */
  datatype StoredConfig = StoredConfig(
    enabled: bool,
    /** the selected mode */
    mode: u32,
    /** the last applied mode */
    appliedMode: u32,
    hasAppliedConfig: bool,
    appliedConfig: Config)

  /** The value-initialised `StoredConfig{}`. */
  const DefaultStored: StoredConfig := StoredConfig(false, 0, 0, false, DefaultConfig)

  /** A boolean as the store writes it: 1 or 0. */
  function Flag(b: bool): (d: u32)
    ensures d != 0 <==> b
  {
    if b then 1 else 0
  }

  /**
   * `ReadDWORD`: succeeds on a DWORD value and yields it; a missing value,
   * or a QWORD that does not fit the 4-byte buffer, leaves `out` as it was.
   */
  function ReadDWORD(k: Key, name: Name, out: u32): (r: (bool, u32))
    ensures r.0 <==> name in k && k[name].Dword?
    ensures r.0 ==> r.1 == k[name].d
    ensures !r.0 ==> r.1 == out
    ensures r.1 == DwordOr(k, name, out)
  {
    if name in k && k[name].Dword? then (true, k[name].d) else (false, out)
  }

  /** `ReadQWORD`: succeeds only on a value of type QWORD. */
  function ReadQWORD(k: Key, name: Name, out: u64): (r: (bool, u64))
    ensures r.0 <==> name in k && k[name].Qword?
    ensures r.0 ==> r.1 == k[name].q
    ensures !r.0 ==> r.1 == out
  {
    if name in k && k[name].Qword? then (true, k[name].q) else (false, out)
  }

  /** The DWORD named `name`, or `dflt` when there is none. */
  function DwordOr(k: Key, name: Name, dflt: u32): u32 {
    if name in k && k[name].Dword? then k[name].d else dflt
  }

  /**
   * The applied configuration Load reads from a key whose `A_HasConfig` is
   * set. The seven DWORD fields are read through one shared variable, so a
   * field whose value is missing gets the value read for the field before
   * it (0 before the first).
   */
  function DecodeApplied(k: Key): Config {
    var boost := DwordOr(k, TimerBoost, 0);
    var ms := DwordOr(k, TimerMs, boost);
    var procEnable := DwordOr(k, ProcEnable, ms);
    var prio := DwordOr(k, ProcPrio, procEnable);
    var thrEnable := DwordOr(k, ThrEnable, prio);
    var thrPrio := DwordOr(k, ThrPrio, thrEnable);
    var affEnable := DwordOr(k, AffEnable, thrPrio);
    Config(
      enableTimerBoost := boost != 0,
      enableProcessPriority := procEnable != 0,
      enableThreadPriority := thrEnable != 0,
      enableAffinity := affEnable != 0,
      affinityMask := if AffMask in k && k[AffMask].Qword? then k[AffMask].q else 0,
      timerResolutionMs := ms,
      processPriority := if prio != 0 then prio else HIGH_PRIORITY_CLASS,
      threadPriority := IntOfDword(thrPrio))
  }

  /** The position of an applied DWORD among Load's reads of the shared variable. */
  function ReadPosition(n: Name): nat {
    match n
    case TimerMs => 1
    case ProcEnable => 2
    case ProcPrio => 3
    case ThrEnable => 4
    case ThrPrio => 5
    case AffEnable => 6
    case _ => 0
  }

  /**
   * The shared variable `v` of Load right after it reads the applied DWORD
   * `n`: the stored DWORD when there is one, otherwise what `v` held after
   * the previous read (0 before `A_TimerBoost`, the first one).
   */
  function SharedAfter(k: Key, n: Name): u32
    decreases ReadPosition(n)
  {
    match n
    case TimerBoost => DwordOr(k, TimerBoost, 0)
    case TimerMs => DwordOr(k, TimerMs, SharedAfter(k, TimerBoost))
    case ProcEnable => DwordOr(k, ProcEnable, SharedAfter(k, TimerMs))
    case ProcPrio => DwordOr(k, ProcPrio, SharedAfter(k, ProcEnable))
    case ThrEnable => DwordOr(k, ThrEnable, SharedAfter(k, ProcPrio))
    case ThrPrio => DwordOr(k, ThrPrio, SharedAfter(k, ThrEnable))
    case AffEnable => DwordOr(k, AffEnable, SharedAfter(k, ThrPrio))
    case _ => 0
  }

  /**
   * What a successful Load makes of `out`: the four header values, 0 when
   * missing, and the applied configuration only when `A_HasConfig` is
   * non-zero; otherwise `out`'s own configuration is kept.
   */
  function Decode(k: Key, out: StoredConfig): StoredConfig {
    var hasCfg := DwordOr(k, HasConfig, 0) != 0;
    StoredConfig(
      enabled := DwordOr(k, Enabled, 0) != 0,
      mode := DwordOr(k, Mode, 0),
      appliedMode := DwordOr(k, AppliedMode, 0),
      hasAppliedConfig := hasCfg,
      appliedConfig := if hasCfg then DecodeApplied(k) else out.appliedConfig)
  }

  /** The value SaveApplied writes under each name. */
  function Encoded(n: Name, appliedMode: u32, cfg: Config, enabled: bool): RegValue {
    match n
    case Enabled => Dword(Flag(enabled))
    case Mode => Dword(appliedMode)
    case AppliedMode => Dword(appliedMode)
    case HasConfig => Dword(1)
    case TimerBoost => Dword(Flag(cfg.enableTimerBoost))
    case TimerMs => Dword(cfg.timerResolutionMs)
    case ProcEnable => Dword(Flag(cfg.enableProcessPriority))
    case ProcPrio => Dword(cfg.processPriority)
    case ThrEnable => Dword(Flag(cfg.enableThreadPriority))
    case ThrPrio => Dword(DwordOfInt(cfg.threadPriority))
    case AffEnable => Dword(Flag(cfg.enableAffinity))
    case AffMask => Qword(cfg.affinityMask)
  }

  /** A key holding exactly what SaveApplied writes: its value for every name. */
  ghost predicate Encodes(k: Key, appliedMode: u32, cfg: Config, enabled: bool) {
    forall n: Name :: n in k && k[n] == Encoded(n, appliedMode, cfg, enabled)
  }

  /** The current user's registry as far as the store's key goes. */
  class Registry {
    /** The key's values, or None while the key does not exist or cannot be opened for reading. */
    var key: Option<Key>
    /** Whether `RegCreateKeyExW` succeeds, creating the key when it is missing. */
    var writable: bool

    constructor (initial: Option<Key>, canWrite: bool)
      ensures key == initial && writable == canWrite
    {
      key := initial;
      writable := canWrite;
    }

    /** The values a save starts from: the existing ones, or none in a newly created key. */
    function Existing(): (k: Key)
      reads this
      ensures key.Some? ==> k == key.value
      ensures key.None? ==> k == map[]
    {
      match key
      case Some(k) => k
      case None => map[]
    }

    /**
     * `Load`: false, with `out` untouched, when the key cannot be opened;
     * otherwise true and `out` filled field by field as Decode says.
     */
    method Load(out: StoredConfig) returns (ok: bool, res: StoredConfig)
      ensures ok <==> key.Some?
      ensures ok ==> res == Decode(key.value, out)
      ensures !ok ==> res == out
    {
      res := out;
      if key.None? {
        return false, res;
      }
      var k := key.value;

      var enabled: u32 := 0;
      enabled := ReadDWORD(k, Enabled, enabled).1;
      res := res.(enabled := enabled != 0);

      var mode: u32 := 0;
      mode := ReadDWORD(k, Mode, mode).1;
      res := res.(mode := mode);

      var appliedMode: u32 := 0;
      appliedMode := ReadDWORD(k, AppliedMode, appliedMode).1;
      res := res.(appliedMode := appliedMode);

      var hasCfg: u32 := 0;
      hasCfg := ReadDWORD(k, HasConfig, hasCfg).1;
      res := res.(hasAppliedConfig := hasCfg != 0);

      if res.hasAppliedConfig {
        var c := ReadApplied(k);
        res := res.(appliedConfig := c);
      }
      ok := true;
    }

    /** `SaveSelectedMode`: writes `Mode` and nothing else. */
    method SaveSelectedMode(mode: u32)
      modifies this
      ensures writable == old(writable)
      ensures old(writable) ==> key == Some(old(Existing())[Mode := Dword(mode)])
      ensures !old(writable) ==> key == old(key)
    {
      if !writable {
        return;
      }
      var k := Existing();
      key := Some(k[Mode := Dword(mode)]);
    }

    /** `SaveEnabled`: writes `Enabled` as 1 or 0 and nothing else. */
    method SaveEnabled(enabled: bool)
      modifies this
      ensures writable == old(writable)
      ensures old(writable) ==> key == Some(old(Existing())[Enabled := Dword(Flag(enabled))])
      ensures !old(writable) ==> key == old(key)
    {
      if !writable {
        return;
      }
      var k := Existing();
      key := Some(k[Enabled := Dword(if enabled then 1 else 0)]);
    }

    /**
     * `SaveApplied`: writes the enabled flag, the mode as both the selected
     * and the applied mode, `A_HasConfig = 1` and every field of the
     * configuration, one value at a time; other values stay.
     */
    method SaveApplied(appliedMode: u32, cfg: Config, enabled: bool)
      modifies this
      ensures writable == old(writable)
      ensures old(writable) ==> key.Some? && Encodes(key.value, appliedMode, cfg, enabled)
      ensures !old(writable) ==> key == old(key)
    {
      if !writable {
        return;
      }
      var k := Existing();
      k := k[Enabled := Dword(if enabled then 1 else 0)];
      k := k[Mode := Dword(appliedMode)];
      k := k[AppliedMode := Dword(appliedMode)];
      k := k[HasConfig := Dword(1)];
      k := k[TimerBoost := Dword(if cfg.enableTimerBoost then 1 else 0)];
      k := k[TimerMs := Dword(cfg.timerResolutionMs)];
      k := k[ProcEnable := Dword(if cfg.enableProcessPriority then 1 else 0)];
      k := k[ProcPrio := Dword(cfg.processPriority)];
      k := k[ThrEnable := Dword(if cfg.enableThreadPriority then 1 else 0)];
      k := k[ThrPrio := Dword(DwordOfInt(cfg.threadPriority))];
      k := k[AffEnable := Dword(if cfg.enableAffinity then 1 else 0)];
      k := k[AffMask := Qword(cfg.affinityMask)];
      forall n: Name
        ensures n in k && k[n] == Encoded(n, appliedMode, cfg, enabled)
      {
        match n
        case Enabled =>
        case Mode =>
        case AppliedMode =>
        case HasConfig =>
        case TimerBoost =>
        case TimerMs =>
        case ProcEnable =>
        case ProcPrio =>
        case ThrEnable =>
        case ThrPrio =>
        case AffEnable =>
        case AffMask =>
      }
      key := Some(k);
    }

    /**
     * `LoadApplied`: the applied configuration and mode of a fresh
     * StoredConfig, or false and the outputs untouched when the key cannot
     * be opened or holds no applied configuration.
     */
    method LoadApplied(cfgOut: Config, modeOut: u32) returns (ok: bool, cfg: Config, appliedMode: u32)
      ensures ok <==> key.Some? && DwordOr(key.value, HasConfig, 0) != 0
      ensures ok ==> cfg == DecodeApplied(key.value) && appliedMode == DwordOr(key.value, AppliedMode, 0)
      ensures !ok ==> cfg == cfgOut && appliedMode == modeOut
    {
      cfg, appliedMode := cfgOut, modeOut;
      var loaded, s := Load(DefaultStored);
      if !loaded {
        return false, cfg, appliedMode;
      }
      if !s.hasAppliedConfig {
        return false, cfg, appliedMode;
      }
      cfg := s.appliedConfig;
      appliedMode := s.appliedMode;
      ok := true;
    }
  }

  /** The applied-configuration block of `Load`, filling a configuration field by field. */
  method ReadApplied(k: Key) returns (c: Config)
    ensures c == DecodeApplied(k)
  {
    var v: u32 := 0;
    v := ReadDWORD(k, TimerBoost, v).1;
    var boost := v != 0;
    v := ReadDWORD(k, TimerMs, v).1;
    var ms := v;
    v := ReadDWORD(k, ProcEnable, v).1;
    var procEnable := v != 0;
    v := ReadDWORD(k, ProcPrio, v).1;
    var prio := if v != 0 then v else HIGH_PRIORITY_CLASS;
    v := ReadDWORD(k, ThrEnable, v).1;
    var thrEnable := v != 0;
    v := ReadDWORD(k, ThrPrio, v).1;
    var thrPrio := IntOfDword(v);
    v := ReadDWORD(k, AffEnable, v).1;
    var affEnable := v != 0;
    var q: u64 := 0;
    var read := ReadQWORD(k, AffMask, q);
    var mask: u64 := if read.0 then read.1 else 0;
    c := Config(boost, procEnable, thrEnable, affEnable, mask, ms, prio, thrPrio);
  }

  /**
   * The configuration part of a key holding what SaveApplied wrote decodes
   * to the saved configuration, except that a process priority of 0 comes
   * back as HIGH_PRIORITY_CLASS.
   */
  lemma DecodeAppliedEncoded(k: Key, appliedMode: u32, cfg: Config, enabled: bool)
    requires Encodes(k, appliedMode, cfg, enabled)
    ensures DecodeApplied(k) ==
      Config(cfg.enableTimerBoost, cfg.enableProcessPriority, cfg.enableThreadPriority, cfg.enableAffinity,
             cfg.affinityMask, cfg.timerResolutionMs,
             if cfg.processPriority != 0 then cfg.processPriority else HIGH_PRIORITY_CLASS, cfg.threadPriority)
  {
    assert k[TimerBoost] == Encoded(TimerBoost, appliedMode, cfg, enabled);
    assert k[TimerMs] == Encoded(TimerMs, appliedMode, cfg, enabled);
    assert k[ProcEnable] == Encoded(ProcEnable, appliedMode, cfg, enabled);
    assert k[ProcPrio] == Encoded(ProcPrio, appliedMode, cfg, enabled);
    assert k[ThrEnable] == Encoded(ThrEnable, appliedMode, cfg, enabled);
    assert k[ThrPrio] == Encoded(ThrPrio, appliedMode, cfg, enabled);
    assert k[AffEnable] == Encoded(AffEnable, appliedMode, cfg, enabled);
    assert k[AffMask] == Encoded(AffMask, appliedMode, cfg, enabled);
    IntDwordRoundTrip(cfg.threadPriority);
  }

  /**
   * Loading a key that holds what SaveApplied wrote gives back the enabled
   * flag, the mode as both the selected and the applied mode, and the
   * configuration as DecodeAppliedEncoded says.
   */
  lemma DecodeEncoded(k: Key, out: StoredConfig, appliedMode: u32, cfg: Config, enabled: bool)
    requires Encodes(k, appliedMode, cfg, enabled)
    ensures Decode(k, out) == StoredConfig(enabled, appliedMode, appliedMode, true, DecodeApplied(k))
  {
    assert k[Enabled] == Encoded(Enabled, appliedMode, cfg, enabled);
    assert k[Mode] == Encoded(Mode, appliedMode, cfg, enabled);
    assert k[AppliedMode] == Encoded(AppliedMode, appliedMode, cfg, enabled);
    assert k[HasConfig] == Encoded(HasConfig, appliedMode, cfg, enabled);
  }

  /**
   * Loading what SaveApplied wrote gives back the enabled flag, the mode
   * and the configuration, provided the
   * process priority is not 0 (which decodes as HIGH_PRIORITY_CLASS).
   */
  lemma LoadAfterSaveApplied(k: Key, out: StoredConfig, appliedMode: u32, cfg: Config, enabled: bool)
    requires Encodes(k, appliedMode, cfg, enabled)
    requires cfg.processPriority != 0
    ensures Decode(k, out) == StoredConfig(enabled, appliedMode, appliedMode, true, cfg)
  {
    DecodeEncoded(k, out, appliedMode, cfg, enabled);
    DecodeAppliedEncoded(k, appliedMode, cfg, enabled);
  }

  /** A stored process priority of 0 comes back as HIGH_PRIORITY_CLASS. */
  lemma ZeroProcPrioDecodesHigh(k: Key, out: StoredConfig, appliedMode: u32, cfg: Config, enabled: bool)
    requires Encodes(k, appliedMode, cfg, enabled)
    requires cfg.processPriority == 0
    ensures Decode(k, out) ==
      StoredConfig(enabled, appliedMode, appliedMode, true, cfg.(processPriority := HIGH_PRIORITY_CLASS))
  {
    DecodeEncoded(k, out, appliedMode, cfg, enabled);
    DecodeAppliedEncoded(k, appliedMode, cfg, enabled);
  }

  /** An empty key decodes to zeros and keeps the caller's applied configuration. */
  lemma DecodeEmpty(out: StoredConfig)
    ensures Decode(map[], out) == StoredConfig(false, 0, 0, false, out.appliedConfig)
  {
  }

  /**
   * Missing values: a header value that is absent or not a DWORD reads as
   * 0, an affinity mask that is not a QWORD as 0, a missing first applied
   * value as 0, and a missing timer period as the value read for the boost.
   */
  lemma DecodeMissing(k: Key, out: StoredConfig)
    ensures (Enabled !in k || !k[Enabled].Dword?) ==> !Decode(k, out).enabled
    ensures (Mode !in k || !k[Mode].Dword?) ==> Decode(k, out).mode == 0
    ensures (AppliedMode !in k || !k[AppliedMode].Dword?) ==> Decode(k, out).appliedMode == 0
    ensures (HasConfig !in k || !k[HasConfig].Dword?) ==>
      !Decode(k, out).hasAppliedConfig && Decode(k, out).appliedConfig == out.appliedConfig
    ensures (AffMask !in k || !k[AffMask].Qword?) ==> DecodeApplied(k).affinityMask == 0
    ensures TimerBoost !in k ==> !DecodeApplied(k).enableTimerBoost
    ensures TimerMs !in k ==> DecodeApplied(k).timerResolutionMs == DwordOr(k, TimerBoost, 0)
  {
  }

  /** The timer and process fields are decoded from the shared variable right after their reads. */
  lemma DecodeTimerProcessShared(k: Key)
    ensures DecodeApplied(k).enableTimerBoost == (SharedAfter(k, TimerBoost) != 0)
    ensures DecodeApplied(k).timerResolutionMs == SharedAfter(k, TimerMs)
    ensures DecodeApplied(k).enableProcessPriority == (SharedAfter(k, ProcEnable) != 0)
    ensures DecodeApplied(k).processPriority ==
      (if SharedAfter(k, ProcPrio) != 0 then SharedAfter(k, ProcPrio) else HIGH_PRIORITY_CLASS)
  {
    var boost := DwordOr(k, TimerBoost, 0);
    var ms := DwordOr(k, TimerMs, boost);
    var procEnable := DwordOr(k, ProcEnable, ms);
    var prio := DwordOr(k, ProcPrio, procEnable);
    assert SharedAfter(k, TimerBoost) == boost;
    assert SharedAfter(k, TimerMs) == ms;
    assert SharedAfter(k, ProcEnable) == procEnable;
    assert SharedAfter(k, ProcPrio) == prio;
  }

  /** The thread and affinity fields are decoded from the shared variable right after their reads. */
  lemma DecodeThreadAffinityShared(k: Key)
    ensures DecodeApplied(k).enableThreadPriority == (SharedAfter(k, ThrEnable) != 0)
    ensures DecodeApplied(k).threadPriority == IntOfDword(SharedAfter(k, ThrPrio))
    ensures DecodeApplied(k).enableAffinity == (SharedAfter(k, AffEnable) != 0)
  {
    var boost := DwordOr(k, TimerBoost, 0);
    var ms := DwordOr(k, TimerMs, boost);
    var procEnable := DwordOr(k, ProcEnable, ms);
    var prio := DwordOr(k, ProcPrio, procEnable);
    var thrEnable := DwordOr(k, ThrEnable, prio);
    var thrPrio := DwordOr(k, ThrPrio, thrEnable);
    var affEnable := DwordOr(k, AffEnable, thrPrio);
    assert SharedAfter(k, ProcPrio) == prio;
    assert SharedAfter(k, ThrEnable) == thrEnable;
    assert SharedAfter(k, ThrPrio) == thrPrio;
    assert SharedAfter(k, AffEnable) == affEnable;
  }

  /**
   * A stored applied DWORD is read as stored; a missing one, or one that is
   * not a DWORD, reads as the raw value of the field read before it (0 for
   * the first).
   */
  lemma MissingCarries(k: Key, n: Name)
    requires n in {TimerBoost, TimerMs, ProcEnable, ProcPrio, ThrEnable, ThrPrio, AffEnable}
    ensures n in k && k[n].Dword? ==> SharedAfter(k, n) == k[n].d
    ensures !(n in k && k[n].Dword?) && n == TimerBoost ==> SharedAfter(k, n) == 0
    ensures !(n in k && k[n].Dword?) && n == TimerMs ==> SharedAfter(k, n) == SharedAfter(k, TimerBoost)
    ensures !(n in k && k[n].Dword?) && n == ProcEnable ==> SharedAfter(k, n) == SharedAfter(k, TimerMs)
    ensures !(n in k && k[n].Dword?) && n == ProcPrio ==> SharedAfter(k, n) == SharedAfter(k, ProcEnable)
    ensures !(n in k && k[n].Dword?) && n == ThrEnable ==> SharedAfter(k, n) == SharedAfter(k, ProcPrio)
    ensures !(n in k && k[n].Dword?) && n == ThrPrio ==> SharedAfter(k, n) == SharedAfter(k, ThrEnable)
    ensures !(n in k && k[n].Dword?) && n == AffEnable ==> SharedAfter(k, n) == SharedAfter(k, ThrPrio)
  {
  }

  /** A missing `A_ProcPrio` takes the value read for `A_ProcEnable`, not HIGH_PRIORITY_CLASS. */
  lemma MissingProcPrioCarriesEnable(k: Key)
    requires ProcPrio !in k && ProcEnable in k && k[ProcEnable] == Dword(1)
    ensures DecodeApplied(k).processPriority == 1
  {
  }

  /** SaveSelectedMode changes only the selected mode Load reports. */
  lemma SaveSelectedModeFrame(k: Key, out: StoredConfig, mode: u32)
    ensures Decode(k[Mode := Dword(mode)], out) == Decode(k, out).(mode := mode)
  {
  }

  /** SaveEnabled changes only the enabled flag Load reports. */
  lemma SaveEnabledFrame(k: Key, out: StoredConfig, enabled: bool)
    ensures Decode(k[Enabled := Dword(Flag(enabled))], out) == Decode(k, out).(enabled := enabled)
  {
  }

  /** After a save that succeeds, LoadApplied returns the configuration and mode just saved. */
  method SaveThenLoadApplied(reg: Registry, appliedMode: u32, cfg: Config, enabled: bool, cfgOut: Config, modeOut: u32)
    returns (ok: bool, loaded: Config, loadedMode: u32)
    requires cfg.processPriority != 0
    modifies reg
    ensures old(reg.writable) ==> ok && loaded == cfg && loadedMode == appliedMode
    ensures !old(reg.writable) ==> reg.key == old(reg.key)
  {
    reg.SaveApplied(appliedMode, cfg, enabled);
    if reg.writable {
      LoadAfterSaveApplied(reg.key.value, DefaultStored, appliedMode, cfg, enabled);
    }
    ok, loaded, loadedMode := reg.LoadApplied(cfgOut, modeOut);
  }
}
