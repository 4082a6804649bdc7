/**
 * The input worker (include/InputThread.h, src/InputThread.cpp): its
 * configuration record and the bookkeeping with which it applies and
 * restores system settings.
 *
 * The model is sequential. `Start` spawns the worker and runs its start-up
 * (the `ThreadProc` prologue) at once; how that start-up ends is the
 * parameter `setup`. `Stop` signals the worker, whose pump loop exits and
 * runs `Cleanup`, joins it, and then restores settings once more from the
 * caller. The operating system is the `Os` record in the field `os`.
 */
module Worker {
  import opened Win32

  /** `InputThread::Config`. */
  datatype Config = Config(
    enableTimerBoost: bool,
    enableProcessPriority: bool,
    enableThreadPriority: bool,
    enableAffinity: bool,
    affinityMask: u64,
    timerResolutionMs: u32,
    processPriority: u32,
    threadPriority: i32)

  /** The default-initialised `Config{}`. */
  const DefaultConfig: Config :=
    Config(false, false, false, false, 0, 1, HIGH_PRIORITY_CLASS, THREAD_PRIORITY_TIME_CRITICAL)

  /** How the worker's start-up ends once the settings are applied. */
  datatype Setup =
    | WindowFails    // CreateHiddenWindow fails
    | RawInputFails  // InitializeRawInput fails
    | Pumping        // the capture loop is entered

  /** The timer request the worker currently holds: none when the period is 0. */
  function Held(ms: u32): (h: seq<u32>)
    ensures ms == 0 ==> h == []
    ensures ms != 0 ==> h == [ms]
  {
    if ms == 0 then [] else [ms]
  }

  /** cfg pins the thread: affinity enabled with a non-zero mask the process allows. */
  predicate Pins(os: Os, cfg: Config) {
    cfg.enableAffinity && AffinityAccepted(os, cfg.affinityMask)
  }

  /** The thread and process settings a running worker establishes by applying cfg. */
  predicate Reflects(os: Os, cfg: Config) {
    && os.boostDisabled == cfg.enableThreadPriority
    && os.threadPriority == (if cfg.enableThreadPriority then cfg.threadPriority else THREAD_PRIORITY_NORMAL)
    && os.priorityClass == (if cfg.enableProcessPriority then cfg.processPriority else NORMAL_PRIORITY_CLASS)
    && (Pins(os, cfg) ==> os.threadAffinity == cfg.affinityMask)
    && (!cfg.enableAffinity || cfg.affinityMask == 0 ==> os.threadAffinity == os.processAffinity)
  }

  class InputThread {
    /** The operating system as the worker sees it. */
    var os: Os

    /** `thread_handle_ != nullptr` */
    var hasHandle: bool
    /** `thread_.joinable()`: a spawned thread that nobody has joined yet. */
    var joinable: bool
    /** `thread_id_` */
    var threadId: u32
    /** `running_` */
    var running: bool
    /** `should_exit_` */
    var shouldExit: bool
    /** `desired_running_` */
    var desiredRunning: bool
    /** `config_` */
    var config: Config
    /** `hMmcss_ != nullptr` */
    var mmcss: bool
    /** `original_process_priority_` */
    var originalProcessPriority: u32
    /** `applied_timer_resolution_ms_` */
    var appliedTimerResolutionMs: u32
    /** `original_affinity_mask_` */
    var originalAffinityMask: u64
    /** `applied_affinity_mask_` */
    var appliedAffinityMask: u64

    /** The timer requests outstanding before the worker existed. */
    ghost const baseTimers: seq<u32>
    /** Timer requests the worker made and no longer remembers, so never releases. */
    ghost var leakedTimers: seq<u32>

    /** The bookkeeping invariant, kept by every step of the worker. */
    ghost predicate Inv()
      reads this
    {
      && ValidOs(os)
      && (running ==> hasHandle && joinable)
      // a remembered original is always the mask the thread started with
      && (originalAffinityMask != 0 ==> originalAffinityMask == os.processAffinity)
      && (appliedAffinityMask != 0 ==> originalAffinityMask != 0 && hasHandle)
      && (hasHandle ==>
            os.threadAffinity == if appliedAffinityMask != 0 then appliedAffinityMask else os.processAffinity)
      // every request is released, held, or leaked
      && os.timerRequests == baseTimers + leakedTimers + Held(appliedTimerResolutionMs)
    }

    /** Between calls: a worker that is not running holds nothing. */
    ghost predicate Valid()
      reads this
    {
      && Inv()
      && (!running ==> originalAffinityMask == 0 && appliedAffinityMask == 0)
      && (!running ==> appliedTimerResolutionMs == 0 && !mmcss)
    }

    /** What RestoreSystemSettings leaves behind. */
    ghost predicate Restored()
      reads this
    {
      && os.priorityClass == originalProcessPriority
      && appliedTimerResolutionMs == 0
      && os.timerRequests == baseTimers + leakedTimers
      && originalAffinityMask == 0
      && appliedAffinityMask == 0
      && (hasHandle ==> os.threadAffinity == os.processAffinity)
    }

    /** The thread's lifecycle fields and the configuration are as before. */
    twostate predicate SameLifecycle()
      reads this
    {
      && running == old(running) && hasHandle == old(hasHandle) && joinable == old(joinable)
      && threadId == old(threadId) && shouldExit == old(shouldExit)
      && desiredRunning == old(desiredRunning) && config == old(config) && mmcss == old(mmcss)
    }

    /** The operating system and the worker's original/applied bookkeeping are as before. */
    twostate predicate SameBookkeeping()
      reads this
    {
      && os == old(os) && leakedTimers == old(leakedTimers)
      && originalProcessPriority == old(originalProcessPriority)
      && appliedTimerResolutionMs == old(appliedTimerResolutionMs)
      && originalAffinityMask == old(originalAffinityMask) && appliedAffinityMask == old(appliedAffinityMask)
    }

    /**
     * What ApplyAffinity records: the pinned mask after a successful pin,
     * together with the original mask when none was remembered; nothing
     * pinned after restoring the original; otherwise the masks as before.
     */
    twostate predicate AffinityRecorded()
      reads this
    {
      var pin := config.enableAffinity && config.affinityMask != 0;
      var pinned := pin && AffinityAccepted(old(os), config.affinityMask);
      var unpin := !pin && old(originalAffinityMask) != 0 && old(appliedAffinityMask) != 0;
      && (pinned ==> appliedAffinityMask == config.affinityMask)
      && (pinned ==> originalAffinityMask ==
                       (if old(originalAffinityMask) == 0 then old(os.threadAffinity) else old(originalAffinityMask)))
      && (unpin ==> appliedAffinityMask == 0 && originalAffinityMask == old(originalAffinityMask))
      && (!pinned && !unpin ==> appliedAffinityMask == old(appliedAffinityMask))
      && (!pinned && !unpin ==> originalAffinityMask == old(originalAffinityMask))
    }

    /** A new worker: stopped, nothing applied, and `original_process_priority_` NORMAL. */
    constructor (sys: Os)
      requires ValidOs(sys)
      ensures Valid()
      ensures os == sys && baseTimers == sys.timerRequests && leakedTimers == []
      ensures !running && !shouldExit && !desiredRunning
      ensures !hasHandle && !joinable && threadId == 0 && !mmcss
      ensures config == DefaultConfig
      ensures originalProcessPriority == NORMAL_PRIORITY_CLASS && appliedTimerResolutionMs == 0
      ensures originalAffinityMask == 0 && appliedAffinityMask == 0
    {
      os := sys;
      hasHandle := false;
      joinable := false;
      threadId := 0;
      running := false;
      shouldExit := false;
      desiredRunning := false;
      config := DefaultConfig;
      mmcss := false;
      originalProcessPriority := NORMAL_PRIORITY_CLASS;
      appliedTimerResolutionMs := 0;
      originalAffinityMask := 0;
      appliedAffinityMask := 0;
      baseTimers := sys.timerRequests;
      leakedTimers := [];
    }

    /** `IsRunning()` */
    function IsRunning(): bool
      reads this
    {
      running
    }

    /** `ShouldBeRunning()` */
    function ShouldBeRunning(): bool
      reads this
    {
      desiredRunning
    }

    /**
     * `ApplyAffinity`: pin to an enabled non-zero mask, remembering the
     * previous mask on the first successful pin; when disabled, restore the
     * remembered mask if one is pinned. Only the running worker applies
     * settings.
     */
    method ApplyAffinity()
      requires Inv() && running
      modifies this
      ensures Inv()
      ensures var pin := config.enableAffinity && config.affinityMask != 0;
        var pinned := pin && AffinityAccepted(old(os), config.affinityMask);
        var unpin := !pin && old(originalAffinityMask) != 0 && old(appliedAffinityMask) != 0;
        && (pinned ==> os == old(os).(threadAffinity := config.affinityMask))
        && (pinned ==> appliedAffinityMask == config.affinityMask)
        && (pinned ==> originalAffinityMask ==
                         (if old(originalAffinityMask) == 0 then old(os.threadAffinity) else old(originalAffinityMask)))
        && (unpin ==> os == old(os).(threadAffinity := old(originalAffinityMask)))
        && (unpin ==> appliedAffinityMask == 0 && originalAffinityMask == old(originalAffinityMask))
        && (!pinned && !unpin ==> os == old(os))
      ensures AffinityRecorded()
      ensures originalProcessPriority == old(originalProcessPriority)
      ensures appliedTimerResolutionMs == old(appliedTimerResolutionMs) && leakedTimers == old(leakedTimers)
      ensures SameLifecycle()
    {
      var cfg := config;
      if cfg.enableAffinity && cfg.affinityMask != 0 {
        var r := SetThreadAffinityMask(os, cfg.affinityMask);
        os := r.0;
        if r.1 != 0 {
          if originalAffinityMask == 0 {
            originalAffinityMask := r.1;
          }
          appliedAffinityMask := cfg.affinityMask;
        }
      } else {
        RestoreAffinity();
      }
    }

    /**
     * `ApplyThreadPriority`: when enabled, disable dynamic boosting and set
     * the configured level; otherwise re-enable boosting at NORMAL.
     */
    method ApplyThreadPriority()
      requires Inv() && running
      modifies this
      ensures Inv()
      ensures config.enableThreadPriority ==>
        os == old(os).(boostDisabled := true, threadPriority := config.threadPriority)
      ensures !config.enableThreadPriority ==>
        os == old(os).(boostDisabled := false, threadPriority := THREAD_PRIORITY_NORMAL)
      ensures originalProcessPriority == old(originalProcessPriority)
      ensures originalAffinityMask == old(originalAffinityMask) && appliedAffinityMask == old(appliedAffinityMask)
      ensures appliedTimerResolutionMs == old(appliedTimerResolutionMs) && leakedTimers == old(leakedTimers)
      ensures SameLifecycle()
    {
      var cfg := config;
      if cfg.enableThreadPriority {
        os := SetThreadPriorityBoost(os, true);
        os := SetThreadPriority(os, cfg.threadPriority);
      } else {
        os := SetThreadPriorityBoost(os, false);
        os := SetThreadPriority(os, THREAD_PRIORITY_NORMAL);
      }
    }

    /**
     * `ApplyProcessPriority`: when enabled, record the current class as the
     * original, on every call, and set the configured class; otherwise set
     * NORMAL.
     */
    method ApplyProcessPriority()
      requires Inv() && running
      modifies this
      ensures Inv()
      ensures config.enableProcessPriority ==>
        originalProcessPriority == old(os.priorityClass) && os == old(os).(priorityClass := config.processPriority)
      ensures !config.enableProcessPriority ==>
        originalProcessPriority == old(originalProcessPriority)
        && os == old(os).(priorityClass := NORMAL_PRIORITY_CLASS)
      ensures originalAffinityMask == old(originalAffinityMask) && appliedAffinityMask == old(appliedAffinityMask)
      ensures appliedTimerResolutionMs == old(appliedTimerResolutionMs) && leakedTimers == old(leakedTimers)
      ensures SameLifecycle()
    {
      var cfg := config;
      if cfg.enableProcessPriority {
        originalProcessPriority := os.priorityClass;
        os := SetPriorityClass(os, cfg.processPriority);
      } else {
        os := SetPriorityClass(os, NORMAL_PRIORITY_CLASS);
      }
    }

    /**
     * `ApplyTimerResolution`: when enabled, issue one more request for the
     * configured period and remember it, forgetting (leaking) any request
     * held before; when disabled, release the held request, if any.
     */
    method ApplyTimerResolution()
      requires Inv() && running
      modifies this
      ensures Inv()
      ensures config.enableTimerBoost ==>
        && os == old(os).(timerRequests := old(os.timerRequests) + Held(config.timerResolutionMs))
        && appliedTimerResolutionMs == config.timerResolutionMs
        && leakedTimers == old(leakedTimers) + Held(old(appliedTimerResolutionMs))
      ensures !config.enableTimerBoost ==>
        && os == old(os).(timerRequests := baseTimers + leakedTimers)
        && appliedTimerResolutionMs == 0
        && leakedTimers == old(leakedTimers)
      ensures originalAffinityMask == old(originalAffinityMask) && appliedAffinityMask == old(appliedAffinityMask)
      ensures originalProcessPriority == old(originalProcessPriority)
      ensures SameLifecycle()
    {
      var cfg := config;
      if cfg.enableTimerBoost {
        ReissueAccount(baseTimers, leakedTimers, appliedTimerResolutionMs, cfg.timerResolutionMs);
        os := TimeBeginPeriod(os, cfg.timerResolutionMs);
        leakedTimers := leakedTimers + Held(appliedTimerResolutionMs);
        appliedTimerResolutionMs := cfg.timerResolutionMs;
      } else {
        ReleaseTimer();
      }
    }

    /** Release the held timer request, if any (`timeEndPeriod` on the remembered period). */
    method ReleaseTimer()
      requires Inv()
      modifies this
      ensures Inv()
      ensures os == old(os).(timerRequests := baseTimers + leakedTimers)
      ensures appliedTimerResolutionMs == 0 && leakedTimers == old(leakedTimers)
      ensures originalAffinityMask == old(originalAffinityMask) && appliedAffinityMask == old(appliedAffinityMask)
      ensures originalProcessPriority == old(originalProcessPriority)
      ensures SameLifecycle()
    {
      if appliedTimerResolutionMs != 0 {
        ReleaseAccount(baseTimers, leakedTimers, appliedTimerResolutionMs);
        os := TimeEndPeriod(os, appliedTimerResolutionMs);
        appliedTimerResolutionMs := 0;
      }
    }

    /**
     * Put a pinned thread back on its remembered mask. The pinned mask is
     * forgotten; the remembered one is kept.
     */
    method RestoreAffinity()
      requires Inv()
      modifies this
      ensures Inv()
      ensures var unpin := old(originalAffinityMask) != 0 && old(appliedAffinityMask) != 0 && hasHandle;
        && (unpin ==> os == old(os).(threadAffinity := old(originalAffinityMask)) && appliedAffinityMask == 0)
        && (!unpin ==> os == old(os) && appliedAffinityMask == old(appliedAffinityMask))
      ensures originalAffinityMask == old(originalAffinityMask)
      ensures appliedTimerResolutionMs == old(appliedTimerResolutionMs) && leakedTimers == old(leakedTimers)
      ensures originalProcessPriority == old(originalProcessPriority)
      ensures SameLifecycle()
    {
      if originalAffinityMask != 0 && appliedAffinityMask != 0 && hasHandle {
        BitAndSelf(originalAffinityMask);
        os := SetThreadAffinityMask(os, originalAffinityMask).0;
        appliedAffinityMask := 0;
      }
    }

    /**
     * `RestoreSystemSettings`: set the remembered process class, release the
     * held timer request, restore a pinned thread's original mask, and forget
     * the original mask. Thread priority and dynamic boosting are left as
     * they are.
     */
    method RestoreSystemSettings()
      requires Inv()
      modifies this
      ensures Inv() && Restored()
      ensures originalProcessPriority == old(originalProcessPriority) && leakedTimers == old(leakedTimers)
      ensures os.threadPriority == old(os.threadPriority) && os.boostDisabled == old(os.boostDisabled)
      ensures os.processAffinity == old(os.processAffinity)
      ensures !hasHandle ==> os.threadAffinity == old(os.threadAffinity)
      ensures SameLifecycle()
    {
      os := SetPriorityClass(os, originalProcessPriority);
      ReleaseTimer();
      RestoreAffinity();
      originalAffinityMask := 0;
    }

    /** `Cleanup`: revert the MMCSS registration, then restore settings. */
    method Cleanup()
      requires Inv()
      modifies this
      ensures Inv() && Restored() && !mmcss
      ensures originalProcessPriority == old(originalProcessPriority) && leakedTimers == old(leakedTimers)
      ensures os.threadPriority == old(os.threadPriority) && os.boostDisabled == old(os.boostDisabled)
      ensures os.processAffinity == old(os.processAffinity)
      ensures running == old(running) && hasHandle == old(hasHandle) && joinable == old(joinable)
      ensures threadId == old(threadId) && config == old(config)
      ensures shouldExit == old(shouldExit) && desiredRunning == old(desiredRunning)
    {
      mmcss := false;
      RestoreSystemSettings();
    }

    /** The four settings in their fixed order: affinity, thread priority, process priority, timer. */
    method ApplyAll()
      requires Inv() && running
      modifies this
      ensures Inv() && Reflects(os, config)
      ensures os.processAffinity == old(os.processAffinity)
      ensures config.enableAffinity && config.affinityMask != 0 && !Pins(os, config) ==>
        os.threadAffinity == old(os.threadAffinity)
      ensures appliedTimerResolutionMs == (if config.enableTimerBoost then config.timerResolutionMs else 0)
      ensures config.enableTimerBoost ==>
        os.timerRequests == old(os.timerRequests) + Held(config.timerResolutionMs)
        && leakedTimers == old(leakedTimers) + Held(old(appliedTimerResolutionMs))
      ensures !config.enableTimerBoost ==>
        os.timerRequests == baseTimers + leakedTimers && leakedTimers == old(leakedTimers)
      ensures originalProcessPriority ==
        (if config.enableProcessPriority then old(os.priorityClass) else old(originalProcessPriority))
      ensures AffinityRecorded()
      ensures SameLifecycle()
    {
      ApplyAffinity();
      ApplyThreadPriority();
      ApplyProcessPriority();
      ApplyTimerResolution();
    }

    /**
     * The start-up of `ThreadProc` up to its capture loop: record the thread
     * id, register with MMCSS when thread priority is enabled, apply the
     * settings, then create the window and register for raw input. When
     * either fails the worker marks itself stopped and cleans up; the thread
     * then ends without being joined.
     */
    method ThreadStartup(setup: Setup, tid: u32)
      requires Inv() && running && !mmcss && appliedTimerResolutionMs == 0
      modifies this
      ensures Valid()
      ensures threadId == tid && config == old(config)
      ensures leakedTimers == old(leakedTimers)
      ensures originalProcessPriority ==
        (if config.enableProcessPriority then old(os.priorityClass) else old(originalProcessPriority))
      ensures setup == Pumping ==>
        os.timerRequests == old(os.timerRequests) + (if config.enableTimerBoost then Held(config.timerResolutionMs) else [])
      ensures hasHandle == old(hasHandle) && joinable == old(joinable)
      ensures shouldExit == old(shouldExit) && desiredRunning == old(desiredRunning)
      ensures os.processAffinity == old(os.processAffinity)
      ensures running <==> setup == Pumping
      ensures setup == Pumping ==> Reflects(os, config) && mmcss == config.enableThreadPriority
      ensures setup != Pumping ==> Restored() && !mmcss
    {
      threadId := tid;
      if config.enableThreadPriority {
        mmcss := true;
      }
      ApplyAll();
      if setup != Pumping {
        running := false;
        Cleanup();
      }
    }

    /**
     * Spawn the worker thread and run its start-up. The new thread starts
     * with the process affinity, normal priority and boosting enabled.
     */
    method Spawn(setup: Setup, tid: u32)
      requires Valid() && !joinable
      modifies this
      ensures Valid()
      ensures running <==> setup == Pumping
      ensures joinable && hasHandle && threadId == tid && !shouldExit
      ensures config == old(config) && desiredRunning == old(desiredRunning)
      ensures os.processAffinity == old(os.processAffinity)
      ensures leakedTimers == old(leakedTimers)
      ensures originalProcessPriority ==
        (if config.enableProcessPriority then old(os.priorityClass) else old(originalProcessPriority))
      ensures setup == Pumping ==>
        os.timerRequests == old(os.timerRequests) + (if config.enableTimerBoost then Held(config.timerResolutionMs) else [])
      ensures setup == Pumping ==> Reflects(os, config) && mmcss == config.enableThreadPriority
      ensures setup != Pumping ==> Restored() && !mmcss
    {
      shouldExit := false;
      running := true;
      os := StartThread(os);
      joinable := true;
      hasHandle := true;
      ThreadStartup(setup, tid);
    }

    /**
     * `Start`: record that the worker should run; if it already runs, fail;
     * otherwise take the configuration and spawn the worker. A thread left
     * behind by a failed start-up is joined before the new one is spawned.
     */
    method Start(cfg: Config, setup: Setup, tid: u32) returns (ok: bool)
      requires Valid()
      modifies this
      ensures Valid() && desiredRunning
      ensures ok <==> !old(running)
      ensures !ok ==> running && SameBookkeeping() && config == old(config) && threadId == old(threadId)
      ensures !ok ==> hasHandle == old(hasHandle) && joinable == old(joinable)
      ensures !ok ==> shouldExit == old(shouldExit) && mmcss == old(mmcss)
      ensures ok ==> config == cfg && threadId == tid && joinable && hasHandle && !shouldExit
      ensures ok ==> os.processAffinity == old(os.processAffinity)
      ensures ok ==> (running <==> setup == Pumping)
      ensures ok ==> leakedTimers == old(leakedTimers)
      ensures ok ==> (originalProcessPriority ==
        if cfg.enableProcessPriority then old(os.priorityClass) else old(originalProcessPriority))
      ensures ok && setup == Pumping ==>
        os.timerRequests == old(os.timerRequests) + (if cfg.enableTimerBoost then Held(cfg.timerResolutionMs) else [])
      ensures ok && setup == Pumping ==> Reflects(os, cfg) && mmcss == cfg.enableThreadPriority
      ensures ok && setup != Pumping ==> Restored() && !mmcss
    {
      desiredRunning := true;
      if running {
        return false;
      }
      config := cfg;
      joinable := false;
      Spawn(setup, tid);
      return true;
    }

    /**
     * `Start` as the source writes it: the new `std::thread` is move-assigned
     * over the old one without joining it. When the old thread is still
     * joinable, which a failed start-up leaves behind, the assignment calls
     * `std::terminate`; `terminates` reports that and the model stops there.
     */
    method StartAsWritten(cfg: Config, setup: Setup, tid: u32) returns (ok: bool, terminates: bool)
      requires Valid()
      modifies this
      ensures Inv() && desiredRunning
      ensures ok <==> !old(running)
      ensures terminates <==> ok && old(joinable)
      ensures !ok ==> running && os == old(os) && config == old(config)
      ensures ok && !terminates ==> Valid() && config == cfg && threadId == tid && joinable
      ensures ok && !terminates ==> (running <==> setup == Pumping)
      ensures ok && !terminates && setup == Pumping ==> Reflects(os, cfg)
    {
      desiredRunning := true;
      if running {
        return false, false;
      }
      config := cfg;
      if joinable {
        return true, true;
      }
      Spawn(setup, tid);
      return true, false;
    }

    /**
     * `Stop`: record that the worker should not run; if it runs, signal it,
     * let its loop exit and clean up, join it, forget the thread and restore
     * settings once more. A thread left behind by a failed start-up is joined
     * as well, so that nothing joinable remains.
     */
    method Stop()
      requires Valid()
      modifies this
      ensures Valid() && !running && !desiredRunning && !joinable
      ensures old(running) ==> Restored() && !hasHandle && threadId == 0 && shouldExit && !mmcss
      ensures old(running) ==> originalProcessPriority == old(originalProcessPriority) && leakedTimers == old(leakedTimers)
      ensures old(running) ==> os.threadPriority == old(os.threadPriority) && os.boostDisabled == old(os.boostDisabled)
      ensures old(running) ==> os.processAffinity == old(os.processAffinity)
      ensures !old(running) ==> SameBookkeeping() && hasHandle == old(hasHandle) && threadId == old(threadId)
      ensures !old(running) ==> shouldExit == old(shouldExit) && mmcss == old(mmcss)
      ensures config == old(config)
    {
      desiredRunning := false;
      if !running {
        joinable := false;
        return;
      }
      shouldExit := true;
      Cleanup();
      joinable := false;
      hasHandle := false;
      threadId := 0;
      running := false;
      RestoreSystemSettings();
    }

    /**
     * `Stop` as the source writes it: a worker that is not running returns
     * at once, so a thread ended by a failed start-up stays joinable and the
     * destructor, which calls Stop, destroys a joinable `std::thread`.
     */
    method StopAsWritten()
      requires Valid()
      modifies this
      ensures Valid() && !running && !desiredRunning
      ensures !old(running) ==> SameBookkeeping() && joinable == old(joinable) && hasHandle == old(hasHandle)
      ensures !old(running) ==> threadId == old(threadId) && shouldExit == old(shouldExit) && mmcss == old(mmcss)
      ensures old(running) ==> Restored() && !hasHandle && !joinable && threadId == 0 && !mmcss && shouldExit
      ensures old(running) ==> originalProcessPriority == old(originalProcessPriority) && leakedTimers == old(leakedTimers)
      ensures old(running) ==> os.processAffinity == old(os.processAffinity)
      ensures config == old(config)
    {
      desiredRunning := false;
      if !running {
        return;
      }
      shouldExit := true;
      Cleanup();
      joinable := false;
      hasHandle := false;
      threadId := 0;
      running := false;
      RestoreSystemSettings();
    }

    /** `UpdateConfig`: take the new configuration and, while running, apply it again. */
    method UpdateConfig(cfg: Config)
      requires Valid()
      modifies this
      ensures Valid() && config == cfg
      ensures running == old(running) && joinable == old(joinable) && desiredRunning == old(desiredRunning)
      ensures hasHandle == old(hasHandle) && threadId == old(threadId)
      ensures shouldExit == old(shouldExit) && mmcss == old(mmcss)
      ensures !running ==> SameBookkeeping()
      ensures running ==> AffinityRecorded()
      ensures running ==> appliedTimerResolutionMs == (if cfg.enableTimerBoost then cfg.timerResolutionMs else 0)
      ensures running && !cfg.enableProcessPriority ==> originalProcessPriority == old(originalProcessPriority)
      ensures running ==> Reflects(os, cfg) && os.processAffinity == old(os.processAffinity)
      ensures running && cfg.enableAffinity && cfg.affinityMask != 0 && !Pins(os, cfg) ==>
        os.threadAffinity == old(os.threadAffinity)
      ensures running && cfg.enableProcessPriority ==> originalProcessPriority == old(os.priorityClass)
      ensures running && cfg.enableTimerBoost ==>
        os.timerRequests == old(os.timerRequests) + Held(cfg.timerResolutionMs)
        && leakedTimers == old(leakedTimers) + Held(old(appliedTimerResolutionMs))
      ensures running && !cfg.enableTimerBoost ==>
        os.timerRequests == baseTimers + leakedTimers && leakedTimers == old(leakedTimers)
    {
      config := cfg;
      if running {
        ApplyAll();
      }
    }
  }

  /**
   * One run: start with cfg, reach the capture loop, stop. The process
   * class returns to the remembered original, which is NORMAL unless the
   * configuration raised it, and no timer request stays outstanding.
   */
  method SingleRun(sys: Os, cfg: Config, tid: u32) returns (during: Os, after: Os)
    requires ValidOs(sys)
    ensures Reflects(during, cfg)
    ensures after.timerRequests == sys.timerRequests
    ensures after.priorityClass == if cfg.enableProcessPriority then sys.priorityClass else NORMAL_PRIORITY_CLASS
    ensures after.threadPriority == during.threadPriority && after.boostDisabled == during.boostDisabled
  {
    var w := new InputThread(sys);
    var ok := w.Start(cfg, Pumping, tid);
    during := w.os;
    w.Stop();
    after := w.os;
  }

  /**
   * Applying the same configuration again while running leaves the thread
   * and process settings as they were, but issues one more timer request.
   */
  method ReapplySameConfig(sys: Os, cfg: Config, tid: u32) returns (first: Os, second: Os)
    requires ValidOs(sys)
    ensures second.threadAffinity == first.threadAffinity && second.priorityClass == first.priorityClass
    ensures second.threadPriority == first.threadPriority && second.boostDisabled == first.boostDisabled
    ensures cfg.enableTimerBoost ==> second.timerRequests == first.timerRequests + Held(cfg.timerResolutionMs)
    ensures !cfg.enableTimerBoost ==> second.timerRequests == first.timerRequests
  {
    var w := new InputThread(sys);
    var ok := w.Start(cfg, Pumping, tid);
    first := w.os;
    w.UpdateConfig(cfg);
    second := w.os;
  }

  /**
   * Start, re-apply the same configuration, stop: the first timer request
   * is never released, and with process priority enabled the class the
   * worker restores is the elevated one it set itself.
   */
  method StopAfterReapply(sys: Os, cfg: Config, tid: u32) returns (after: Os)
    requires ValidOs(sys)
    ensures cfg.enableTimerBoost ==> after.timerRequests == sys.timerRequests + Held(cfg.timerResolutionMs)
    ensures cfg.enableProcessPriority ==> after.priorityClass == cfg.processPriority
  {
    var w := new InputThread(sys);
    var ok := w.Start(cfg, Pumping, tid);
    w.UpdateConfig(cfg);
    w.Stop();
    after := w.os;
  }

  /**
   * As written: a start-up whose window creation fails leaves the worker
   * stopped but wanted, which is the watchdog's restart condition
   * (`ShouldBeRunning() && !IsRunning()`), and the restart then assigns a
   * new `std::thread` over the unjoined one, which calls `std::terminate`.
   * Stopping instead leaves the thread joinable for the destructor.
   */
  method FailedStartupAsWritten(sys: Os, cfg: Config, tid: u32)
    returns (restartWanted: bool, terminates: bool, joinableAfterStop: bool)
    requires ValidOs(sys)
    ensures restartWanted && terminates && joinableAfterStop
  {
    var w := new InputThread(sys);
    var ok, t := w.StartAsWritten(cfg, WindowFails, tid);
    restartWanted := w.ShouldBeRunning() && !w.IsRunning();
    var v := new InputThread(sys);
    ok, t := v.StartAsWritten(cfg, WindowFails, tid);
    v.StopAsWritten();
    joinableAfterStop := v.joinable;
    ok, terminates := w.StartAsWritten(cfg, Pumping, tid);
  }

  /**
   * With the finished thread joined before a respawn and on Stop, the
   * watchdog's restart after a failed start-up succeeds and Stop leaves no
   * joinable thread.
   */
  method FailedStartupCorrected(sys: Os, cfg: Config, tid: u32)
    returns (restartWanted: bool, restarted: bool, runningAfterRestart: bool, joinableAfterStop: bool)
    requires ValidOs(sys)
    ensures restartWanted && restarted && runningAfterRestart && !joinableAfterStop
  {
    var w := new InputThread(sys);
    var ok := w.Start(cfg, WindowFails, tid);
    restartWanted := w.ShouldBeRunning() && !w.IsRunning();
    restarted := w.Start(cfg, Pumping, tid);
    runningAfterRestart := w.IsRunning();
    w.Stop();
    joinableAfterStop := w.joinable;
  }

  /** A new request while one is held: the held one joins the leaked ones. */
  lemma ReissueAccount(base: seq<u32>, leaked: seq<u32>, held: u32, ms: u32)
    ensures base + leaked + Held(held) + Held(ms) == base + (leaked + Held(held)) + Held(ms)
  {
  }

  /** Releasing the held request leaves the base and the leaked ones. */
  lemma ReleaseAccount(base: seq<u32>, leaked: seq<u32>, held: u32)
    requires held != 0
    ensures RemoveLatest(base + leaked + Held(held), held) == base + leaked
  {
    CancelLatest(base + leaked, held);
  }
}
