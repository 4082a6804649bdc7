# InputLatencyOptimizer — a Dafny model of its tuning and bookkeeping core

InputLatencyOptimizer is a Windows tray application that lowers input
latency. It runs a raw-input worker thread and tunes the system around it:
- it raises the thread and process priority;
- it requests a finer timer period with `timeBeginPeriod`;
- it can pin the worker to one core.

A device tuner picks these settings per mode (Light, Medium, Max or
Recommend) from a profile of the machine and a short sleep-overshoot
benchmark. The settings dialog resolves Recommend to a concrete mode, and a
registry store persists the chosen mode and the last configuration applied.

This project models that core and proves its properties:

| file | module | models |
|---|---|---|
| `win32.dfy` | `Win32` | fixed-width types, the Windows constants, bitwise AND on 64-bit masks, and the operating-system state (`Os`) with each Win32 call the worker makes as a function on it |
| `stats.dfy` | `Stats` | sorting, min, max, average and the nearest-rank percentile over a sample sequence |
| `ring_buffer.dfy` | `Ring` | `RingBuffer<T,N>`: a class whose `Push`/`Clear` update the buffer in place, proved to hold the last N samples |
| `latency_measurer.dfy` | `Latency` | `LatencyMeasurer`: start/end captures into a 1000-sample window, and the reported statistics |
| `modes.dfy` | `Modes` | the `Mode` enumeration and its stored values |
| `input_thread.dfy` | `Worker` | the worker's `Config`, and the `InputThread` class with its lifecycle flags, its "original/applied" bookkeeping and the OS state it changes |
| `device_tuner.dfy` | `Tuner` | `LowestBit`/`HighestBit`, the p95 overshoot selection, `CollectProfile`'s fallbacks, `Calibrate`, `ComputeConfig`, `NormalizeForCurrentState` and the process-wide cache |
| `settings_dialog.dfy` | `Settings` | the mode slider positions, `RecommendModeForDevice` and `ConfigForMode` |
| `config_store.dfy` | `Store` | the registry key as a map from value name to DWORD/QWORD value; `Load`, `LoadApplied` and the three saves |

Modelling choices:
- **Timestamps and benchmarks.** Performance-counter readings are integer
  parameters. Latencies and overshoots are exact reals. A percentile p is a
  fraction `num/den`, and nearest rank uses an integer ceiling.
- **Masks.** `DWORD_PTR` masks are naturals below 2^64. Bitwise AND is
  defined bit by bit, and `~m + 1` wraps modulo 2^64.
- **Operating-system state.** It is a value held in the `InputThread`.
  - `Os` holds the process and thread affinity, the priority class, the
    thread priority, the boost flag and the outstanding `timeBeginPeriod`
    requests.
  - Requests are kept in issue order. `timeEndPeriod` cancels the latest
    matching one. The model assumes that Windows keeps a count of the
    requests per period. `Win32.RemoveLatestCounts` proves that cancelling
    the latest match removes exactly one copy from the multiset of
    requests, so the order kept here does not matter.
  - The ghost fields `baseTimers` and `leakedTimers` of `InputThread` account
    for every request the worker has left outstanding.
- **The worker thread.** It runs sequentially. `Start` runs the prologue of
  `ThreadProc` at once:
  - it applies the settings;
  - then window creation and raw-input registration either fail (`Setup`)
    or the worker enters its message pump.

  `Stop` ends the pump and runs the exit `Cleanup`.
- **`IsRunning` and `ShouldBeRunning`.** Both are functions returning
  `running` and `desiredRunning` (include/InputThread.h:31-32).
- **Stand-ins for Windows and registry calls.** These are assumptions,
  written as functions whose contracts only restate their bodies:
  - `Win32.TimeBeginPeriod` adds one request for a non-zero period.
  - `Win32.TimeEndPeriod` removes one.
  - `Tuner.ReadTimerCaps` yields the device range, or 1..15 when the query
    fails.
  - `Store.ReadDWORD` and `Store.ReadQWORD` succeed only on a value of
    their own type, and otherwise leave the output as it was. `Store.DwordOr`
    is the value such a read produces.
  - `Store.Registry.Existing` gives the values a save starts from: none in
    a newly created key.
  - `Worker.Held` is the request the worker holds: none for period 0.
- **The OS queries.** `CollectProfile` takes the results of its queries as a
  `SystemInfo` value, with `None` where a query fails. The four p95 values
  that `Calibrate` measures are a `Probes` value.

Where the specification and the code differ, the model follows the code:
- `ComputeConfig` on battery also disables the thread priority
  (src/DeviceTuner.cpp:171).
- Repeating an enabled `ApplyTimerResolution` leaves one more
  `timeBeginPeriod` outstanding; `Worker.ReapplySameConfig` and
  `Worker.StopAfterReapply` show this.
- Repeating an enabled `ApplyProcessPriority` records the already-raised
  class as the original one.
- `RestoreSystemSettings` never restores the thread priority or the boost
  flag (`Worker.SingleRun`).
- With process priority disabled, the class is not restored either.
  `ApplyProcessPriority` then sets NORMAL_PRIORITY_CLASS
  (src/InputThread.cpp:250-251). `RestoreSystemSettings` sets the
  remembered original class (src/InputThread.cpp:271), which is only ever
  recorded when the setting is enabled and defaults to NORMAL
  (include/InputThread.h:73). A process started at another class, such as
  ABOVE_NORMAL, ends at NORMAL after one run (`Worker.SingleRun`).

## Model

| member | source | states |
|---|---|---|
| Win32.DwordOfInt | src/ConfigStore.cpp:112 | the `(DWORD)` cast of an int keeps non-negative values and maps negative ones to the upper half |
| Win32.IntOfDword | src/ConfigStore.cpp:65 | the `(int)` cast of a DWORD keeps values below 2^31 and maps the upper half to negatives |
| Win32.IntDwordRoundTrip | src/ConfigStore.cpp:65 | storing a thread priority as a DWORD and reading it back as an int gives the same priority |
| Win32.BitAnd | src/DeviceTuner.cpp:22 | the AND of two masks is no larger than either |
| Win32.Negate64 | src/DeviceTuner.cpp:22 | `~m + 1` on a 64-bit mask is 0 for 0 and 2^64 - m otherwise |
| Win32.BitAndSelf | src/DeviceTuner.cpp:250 | m AND m = m |
| Win32.StartThread | src/InputThread.cpp:34 | a new worker thread has a valid affinity: a non-zero subset of the process's |
| Win32.SetThreadAffinityMask | src/InputThread.cpp:214-218 | the call fails, returning 0, exactly when the mask is 0 or not a subset of the process mask; afterwards the thread affinity is still valid |
| Win32.RemoveLatest | src/InputThread.cpp:263 | `timeEndPeriod` removes one outstanding request when one matches and changes nothing otherwise |
| Win32.RemoveLatestCounts | src/InputThread.cpp:263 | cancelling removes exactly one copy of the period from the multiset of outstanding requests |
| Win32.CancelLatest | src/InputThread.cpp:259-264 | ending the period just begun restores the earlier requests |
| Stats.Insert | include/RingBuffer.h:53 | inserting into a sorted sequence keeps it sorted and adds exactly that element |
| Stats.Sort | include/RingBuffer.h:53-54 | the sorted copy is sorted and a permutation of the samples |
| Stats.SortedUnique | include/RingBuffer.h:53-54 | two sorted permutations of the same samples are equal |
| Stats.SortPermutation | include/RingBuffer.h:53-54 | the sorted copy depends only on the multiset of samples |
| Stats.Min | include/RingBuffer.h:34-37 | 0 for no samples; otherwise a sample no larger than any other |
| Stats.Max | include/RingBuffer.h:39-42 | 0 for no samples; otherwise a sample no smaller than any other |
| Stats.Average | include/RingBuffer.h:44-48 | 0 for no samples; otherwise the average times the count is the sum |
| Stats.SumBounds | include/RingBuffer.h:46-47 | the sum of n samples between lo and hi lies between n·lo and n·hi |
| Stats.AverageBetween | include/RingBuffer.h:44-48 | the average lies between min and max |
| Stats.AverageWithin | include/RingBuffer.h:44-48 | the average of samples within [lo, hi] lies within [lo, hi] |
| Stats.CeilDiv | include/RingBuffer.h:59 | the integer ceiling of a/d: the least c with c·d >= a |
| Stats.NearestRank | include/RingBuffer.h:58-61 | the nearest-rank index `ceil(p·n) - 1`, clamped, is a valid index |
| Stats.RankIndex | include/RingBuffer.h:55-61 | a valid index; 0 for p <= 0 and n-1 for p >= 1 |
| Stats.Percentile | include/RingBuffer.h:50-63 | 0 for no samples; otherwise one of the samples |
| Stats.RankIndexMonotone | include/RingBuffer.h:55-61 | a larger p never gives a smaller index |
| Stats.SortedEnds | include/RingBuffer.h:53-57 | the first and last elements of the sorted copy are the min and the max |
| Stats.PercentileExtremes | include/RingBuffer.h:56-57 | p <= 0 gives the min and p >= 1 the max |
| Stats.PercentileBetween | include/RingBuffer.h:50-63 | every percentile lies between the min and the max |
| Stats.CeilMonotone | include/RingBuffer.h:59 | `ceil(p·n)` is non-decreasing in p |
| Stats.PercentileMonotone | include/RingBuffer.h:50-63 | the percentile is non-decreasing in p |
| Stats.SumPermutation | include/RingBuffer.h:46 | the sum depends only on the multiset of samples |
| Stats.SumRemove | include/RingBuffer.h:46 | the sum is the sum without one sample plus that sample |
| Stats.StatsPermutation | include/RingBuffer.h:34-63 | min, max, average and every percentile depend only on the multiset of samples |
| Ring.LastN | include/RingBuffer.h:14-22 | the last n samples: a suffix of length min(count, n) |
| Ring.LastNSnoc | include/RingBuffer.h:14-22 | one push appends while fewer than n are held, and otherwise drops the oldest and appends |
| Ring.LastNIdempotent | include/RingBuffer.h:14-22 | the last n after a push are the same whether or not the history was trimmed first |
| Ring.NextIndex | include/RingBuffer.h:20 | `(head + 1) % N` wraps to 0 exactly at N |
| Ring.OverwriteOldest | include/RingBuffer.h:19-20 | overwriting at head and advancing it drops the oldest sample of the rotation and appends the new one |
| Ring.PushStep | include/RingBuffer.h:14-22 | each of push's two branches keeps the representation invariant |
| Ring.RingBuffer.constructor | include/RingBuffer.h:7-12 | a new buffer is empty, with head 0 |
| Ring.RingBuffer.Push | include/RingBuffer.h:14-22 | while not full it appends and increments size; once full it overwrites `buffer[head]` and advances head mod N; the window becomes the last N samples of the old window plus the new one |
| Ring.RingBuffer.Clear | include/RingBuffer.h:28-32 | size 0, head 0 and no samples |
| Ring.RingBuffer.Size | include/RingBuffer.h:24 | min(pushes since clear, N), the length of the window |
| Ring.RingBuffer.Empty | include/RingBuffer.h:25 | true exactly when nothing was pushed since the last clear |
| Ring.RingBuffer.Full | include/RingBuffer.h:26 | true exactly when at least N samples were pushed since the last clear |
| Ring.RingBuffer.Data | include/RingBuffer.h:65 | the stored vector holds the window's samples as a multiset, in push order until the first overwrite |
| Ring.RingBuffer.WindowPermutation | include/RingBuffer.h:14-22 | the stored vector and the chronological window are permutations of each other |
| Ring.RingBuffer.Min | include/RingBuffer.h:34-37 | the min of the last N samples |
| Ring.RingBuffer.Max | include/RingBuffer.h:39-42 | the max of the last N samples |
| Ring.RingBuffer.Average | include/RingBuffer.h:44-48 | the average of the last N samples |
| Ring.RingBuffer.Percentile | include/RingBuffer.h:50-63 | the nearest-rank percentile of the last N samples |
| Latency.TimeUs | src/LatencyMeasurer.cpp:21-29 | a counter reading in microseconds, non-negative for a non-negative reading |
| Latency.ElapsedUs | src/LatencyMeasurer.cpp:13-16 | the sample is the difference of the two readings in microseconds, non-negative when end >= start |
| Latency.LatencyMeasurer.constructor | src/LatencyMeasurer.cpp:3-5 | stores the frequency; start time 0; an empty 1000-sample window |
| Latency.LatencyMeasurer.StartMeasurement | src/LatencyMeasurer.cpp:7-9 | only the start time changes; the window is untouched |
| Latency.LatencyMeasurer.EndMeasurement | src/LatencyMeasurer.cpp:11-19 | pushes exactly one sample, the elapsed microseconds, so the window becomes the last 1000 of the old window plus it |
| Latency.LatencyMeasurer.GetMinLatency | include/LatencyMeasurer.h:17 | the min of the window |
| Latency.LatencyMeasurer.GetAvgLatency | include/LatencyMeasurer.h:18 | the average of the window |
| Latency.LatencyMeasurer.GetP95Latency | include/LatencyMeasurer.h:19 | the 95th percentile of the window |
| Latency.LatencyMeasurer.GetP99Latency | include/LatencyMeasurer.h:20 | the 99th percentile of the window |
| Latency.LatencyMeasurer.GetSampleCount | include/LatencyMeasurer.h:21 | min(samples since reset, 1000) |
| Latency.LatencyMeasurer.Reset | include/LatencyMeasurer.h:23 | the window becomes empty |
| Latency.LatencyMeasurer.ReportOrdered | include/LatencyMeasurer.h:17-20 | min <= p95 <= p99 and min <= average |
| Modes.ModeValue | include/SettingsDialog.h:9 | the enumerator values 0..3, with Recommend = 3 |
| Modes.ModeValueInjective | include/SettingsDialog.h:9 | distinct modes have distinct stored values |
| Worker.InputThread.constructor | include/InputThread.h:59-61 | not running, not exiting, not wanted; no thread; default config; original priority NORMAL; nothing applied (include/InputThread.h:73-77) |
| Worker.InputThread.ApplyAffinity | src/InputThread.cpp:210-227 | a pin that succeeds records the original mask only if none is recorded, and records the applied mask; a failed pin changes nothing; when disabled, the original is restored only if both masks are set, and the applied mask is cleared; priorities, timer and lifecycle stay |
| Worker.InputThread.ApplyThreadPriority | src/InputThread.cpp:229-241 | enabled: boost disabled and the configured level; disabled: boost enabled and NORMAL; nothing else changes |
| Worker.InputThread.ApplyProcessPriority | src/InputThread.cpp:243-253 | enabled: the current class is recorded as original on every call, then the configured class is set; disabled: NORMAL |
| Worker.InputThread.ApplyTimerResolution | src/InputThread.cpp:255-267 | enabled: one more `timeBeginPeriod` per call, a previous hold becoming a leak; disabled: one `timeEndPeriod(applied)` when applied != 0, then applied = 0 |
| Worker.InputThread.ReleaseTimer | src/InputThread.cpp:273-276 | the held timer request, if any, is cancelled and the applied period zeroed |
| Worker.InputThread.RestoreAffinity | src/InputThread.cpp:277-281 | the original mask is put back only when original, applied and the handle are all present; the applied mask is cleared |
| Worker.InputThread.RestoreSystemSettings | src/InputThread.cpp:269-284 | every setting is restored except the thread priority and the boost flag; leaked requests remain |
| Worker.InputThread.Cleanup | src/InputThread.cpp:201-208 | MMCSS released and the settings restored; the lifecycle flags are untouched |
| Worker.InputThread.ApplyAll | src/InputThread.cpp:151-154 | after affinity, thread priority, process priority and timer, in that order, the OS reflects the config; the affinity masks, original class, held and leaked timer requests are as each step records them; the lifecycle and the process mask stay |
| Worker.InputThread.ThreadStartup | src/InputThread.cpp:138-170 | when the window and raw input come up the worker pumps with the config in force; when either fails it clears running and the settings are restored |
| Worker.InputThread.Spawn | src/InputThread.cpp:34-35 | a new joinable thread with its handle runs the start-up |
| Worker.InputThread.Start | src/InputThread.cpp:22-37 | wanted = true always; when running, false with every other field and the OS unchanged; otherwise stores the config, clears the exit flag, joins a finished thread and spawns a new one, whose start-up either pumps with the OS reflecting the config or fails and restores the settings |
| Worker.InputThread.StartAsWritten | src/InputThread.cpp:22-37 | as written: starting over a finished but unjoined thread terminates the process |
| Worker.InputThread.Stop | src/InputThread.cpp:39-56 | wanted = false always and never a joinable thread left; a running worker is signalled, cleaned up, joined and forgotten (id 0), with settings restored, the process mask, original class and leaked requests kept, and the thread priority untouched; otherwise nothing else changes |
| Worker.InputThread.StopAsWritten | src/InputThread.cpp:39-56 | as written: when not running nothing else changes, so a finished thread stays joinable; a running worker is stopped as by Stop |
| Worker.InputThread.UpdateConfig | src/InputThread.cpp:58-70 | the config is always replaced and the lifecycle kept; a stopped worker changes nothing else; a running one re-applies it, the OS then reflecting it and the bookkeeping as ApplyAll records it |
| Worker.SingleRun | src/InputThread.cpp:269-284 | after one start and stop the timer requests are back; the class is the one before the run only when process priority was enabled, and NORMAL otherwise; the thread priority and boost flag keep their applied values |
| Worker.ReapplySameConfig | src/InputThread.cpp:258-260 | re-applying the same config gives the same settings but one more outstanding timer request |
| Worker.StopAfterReapply | src/InputThread.cpp:248 | after a re-apply and a stop, one timer request stays outstanding and the priority class stays raised |
| Worker.FailedStartupAsWritten | src/main.cpp:59-60 | the watchdog's restart after a failed start-up terminates the process, since the failed thread is still joinable |
| Worker.FailedStartupCorrected | src/main.cpp:59-60 | with the corrected Start/Stop the watchdog's restart starts the worker again and a later Stop leaves nothing joinable |
| Worker.ReleaseAccount | src/InputThread.cpp:262-264 | cancelling the held period leaves exactly the base and leaked requests |
| Tuner.LowBit | src/DeviceTuner.cpp:22 | the reference lowest set bit: 0 exactly for 0 |
| Tuner.LowBitIsLowestBit | src/DeviceTuner.cpp:22 | for m != 0, a single bit of m with no bit of m below it |
| Tuner.HighBit | src/DeviceTuner.cpp:24-29 | the reference highest set bit: 0 exactly for 0, at most m |
| Tuner.HighBitIsHighestBit | src/DeviceTuner.cpp:24-29 | for m != 0, a single bit of m with m < 2·bit: the largest power of two <= m |
| Tuner.NegationIsolatesLowBit | src/DeviceTuner.cpp:22 | m AND (2^w - m) is the lowest set bit of m |
| Tuner.LowestBit | src/DeviceTuner.cpp:22 | `mask & (~mask + 1)` is the lowest set bit of the mask |
| Tuner.HighestBit | src/DeviceTuner.cpp:24-29 | the shift loop terminates with the highest set bit |
| Tuner.CollectProfile | src/DeviceTuner.cpp:49-74 | battery flags only from a successful power query; memory 0 on failure; a zero timer bound becomes 1 (min) or 15 (max), so both are >= 1; masks 0 on failure |
| Tuner.Overshoot | src/DeviceTuner.cpp:85-87 | max(0, elapsed - 1000) |
| Tuner.Overshoots | src/DeviceTuner.cpp:80-89 | one overshoot per sample, in order |
| Tuner.MeasureSleepP95OvershootUs | src/DeviceTuner.cpp:76-95 | the nearest-rank 95th percentile of the overshoots: one of them, and non-negative |
| Tuner.Calibrate | src/DeviceTuner.cpp:111-157 | on battery nothing measured and measured = true; otherwise boost helps iff it gains >= 500 µs; with two distinct extreme cores the better one is the best core, a single bit of the available mask, and pinning helps iff it gains >= 300 µs; otherwise no best core |
| Tuner.BestCoreIsAvailable | src/DeviceTuner.cpp:135-137 | both extreme cores of a non-empty mask are single bits of it |
| Tuner.SafeTimerMs | src/DeviceTuner.cpp:166 | max(1, timerMinMs) |
| Tuner.ComputeConfig | src/DeviceTuner.cpp:159-222 | timer = max(1, timerMin); on battery all four enables false; boost and pinning only as calibrated; the HIGH class only in Max; thread priority exactly off battery in a concrete mode |
| Tuner.ComputeConfigOnBattery | src/DeviceTuner.cpp:168-177 | on battery every mode gives the same configuration, with everything off |
| Tuner.ComputeConfigRecommend | src/DeviceTuner.cpp:179-218 | Recommend matches no case: the default configuration with the safe timer |
| Tuner.ComputeConfigLight | src/DeviceTuner.cpp:180-189 | Light: only the thread priority, at HIGHEST |
| Tuner.ComputeConfigMeasured | src/DeviceTuner.cpp:191-211 | Medium and Max: boost iff measured and helps; pinning iff measured, helps and best != 0, with the best mask |
| Tuner.ComputeConfigMax | src/DeviceTuner.cpp:203-217 | Max: TIME_CRITICAL, or HIGHEST on <= 4 processors; HIGH class iff strong CPU, >= 8 GiB and boost |
| Tuner.NormalizeForCurrentState | src/DeviceTuner.cpp:229-257 | on battery boost, pinning and process class off and TIME_CRITICAL lowered to HIGHEST; a boosted period raised to max(1, timerMin); a pin disjoint from the allowed mask dropped; a zero mask passes |
| Tuner.NormalizeIdempotent | src/DeviceTuner.cpp:229-257 | normalising twice against the same live state equals normalising once |
| Tuner.ComputedIsNormal | src/DeviceTuner.cpp:229-257 | a configuration computed from a profile and its own calibration is unchanged by normalisation against that state |
| Tuner.TunerCache.constructor | src/DeviceTuner.cpp:18-20 | nothing cached; default profile and calibration |
| Tuner.TunerCache.EnsureCached | src/DeviceTuner.cpp:31-37 | the first call collects the profile and calibrates it; later calls change nothing |
| Tuner.TunerCache.Profile | src/DeviceTuner.cpp:39-42 | the cached profile, filled on first use |
| Tuner.TunerCache.Calibration | src/DeviceTuner.cpp:44-47 | the cached calibration, filled on first use |
| Tuner.TunerCache.ComputeConfigCached | src/DeviceTuner.cpp:224-227 | ComputeConfig on the cached pair |
| Tuner.CachedProfileIsStable | src/DeviceTuner.cpp:31-47 | later system readings do not reach the cache: every caller sees the first profile and its calibration |
| Settings.ModeToPos | src/SettingsDialog.cpp:18-26 | a position in [0, 3], 0 exactly for Recommend |
| Settings.PosToMode | src/SettingsDialog.cpp:28-33 | pos <= 0 is Recommend and pos >= 3 is Max |
| Settings.PosToModeOfModeToPos | src/SettingsDialog.cpp:18-33 | PosToMode(ModeToPos(m)) = m for every mode |
| Settings.ModeToPosOfPosToMode | src/SettingsDialog.cpp:18-33 | ModeToPos(PosToMode(p)) = p on 0..3 |
| Settings.PositionIsRotatedValue | src/SettingsDialog.cpp:18-26 | the position is the stored value plus one mod 4, and differs from it except for Max |
| Settings.RecommendModeForDevice | src/SettingsDialog.cpp:127-136 | never Recommend; Light on battery; Max iff off battery, strong CPU and >= 16 GiB; Medium iff off battery, not Max, >= 4 processors and >= 8 GiB |
| Settings.ConfigForMode | src/SettingsDialog.cpp:106-125 | Recommend resolves on a fresh profile by the rule of RecommendModeForDevice, never to Recommend; other modes stay; the result is ComputeConfig on the cached pair |
| Store.SpellingInjective | src/ConfigStore.cpp:31-116 | the twelve value names are distinct |
| Store.Flag | src/ConfigStore.cpp:91 | the stored flag is non-zero exactly for true, as Load reads it back with `!= 0` |
| Store.Registry.constructor | src/ConfigStore.cpp:3 | the single key `Software\InputLatencyOptimizer`, with the given contents (none when absent) and write access |
| Store.Registry.Load | src/ConfigStore.cpp:25-77 | false with `out` untouched when the key cannot be opened; otherwise true and the decoding of the key |
| Store.ReadApplied | src/ConfigStore.cpp:46-73 | the applied block reads the configuration as Decode says |
| Store.Registry.SaveSelectedMode | src/ConfigStore.cpp:79-85 | writes only `Mode`; nothing when the key cannot be created |
| Store.Registry.SaveEnabled | src/ConfigStore.cpp:87-93 | writes only `Enabled` as 1/0; nothing when the key cannot be created |
| Store.Registry.SaveApplied | src/ConfigStore.cpp:95-119 | writes every name: enabled 1/0, the mode as both modes, `A_HasConfig` = 1, and each config field |
| Store.Registry.LoadApplied | src/ConfigStore.cpp:121-128 | true exactly when the key opens and has an applied config, returning it and the applied mode; otherwise the outputs are untouched |
| Store.DecodeAppliedEncoded | src/ConfigStore.cpp:46-73 | the saved config decodes to itself, a process priority of 0 becoming HIGH |
| Store.DecodeEncoded | src/ConfigStore.cpp:25-77 | the saved enabled flag and mode come back, with the applied flag set |
| Store.LoadAfterSaveApplied | src/ConfigStore.cpp:95-119 | after SaveApplied(m, cfg, e), Load gives e, mode = appliedMode = m, has config, and cfg when its process priority is non-zero |
| Store.ZeroProcPrioDecodesHigh | src/ConfigStore.cpp:58-59 | a saved process priority of 0 comes back as HIGH_PRIORITY_CLASS |
| Store.DecodeEmpty | src/ConfigStore.cpp:30-44 | an empty key decodes to zeros and keeps the caller's applied config |
| Store.DecodeMissing | src/ConfigStore.cpp:30-72 | missing header values read 0; a missing `A_HasConfig` keeps the caller's applied config; a non-QWORD mask reads 0; a missing `A_TimerBoost` is off and a missing `A_TimerMs` takes the boost flag's raw value |
| Store.DecodeTimerProcessShared | src/ConfigStore.cpp:46-59 | the boost flag, period, process enable and class are decoded from the shared read variable right after their own reads, a class of 0 becoming HIGH |
| Store.DecodeThreadAffinityShared | src/ConfigStore.cpp:61-68 | the thread enable, thread level and affinity enable are decoded from the shared read variable right after their own reads |
| Store.MissingCarries | src/ConfigStore.cpp:47-68 | each of the seven applied DWORDs reads as stored; when it is missing or not a DWORD, it reads as the raw value of the one read before it, 0 for the first |
| Store.MissingProcPrioCarriesEnable | src/ConfigStore.cpp:55-59 | a missing `A_ProcPrio` takes the value read for `A_ProcEnable`, not HIGH |
| Store.SaveSelectedModeFrame | src/ConfigStore.cpp:79-85 | after SaveSelectedMode only the selected mode Load reports changes |
| Store.SaveEnabledFrame | src/ConfigStore.cpp:87-93 | after SaveEnabled only the enabled flag Load reports changes |
| Store.SaveThenLoadApplied | src/ConfigStore.cpp:95-128 | after a successful save LoadApplied returns the saved config and mode |

## Left out

- `SetPriorityClass`, `SetThreadPriority`, `SetThreadPriorityBoost` and `timeBeginPeriod` are assumed to succeed for every argument. Windows refuses an invalid priority class or thread level, and `timeBeginPeriod` outside the device range fails with TIMERR_NOCANDO. The model does not capture those refusals: `Reflects`, which ApplyAll, Start and UpdateConfig promise, would not hold after one. A decoded configuration can carry such a value, for example class 1 (`Store.MissingProcPrioCarriesEnable`).
- Concurrency is not modelled: the `std::thread` spawn and join, `config_mutex_`, the atomics, the cache mutex and `PostThreadMessageW(WM_QUIT)`. Everything runs sequentially with the thread handle present, and the race where `thread_handle_` is assigned after the thread may already run the `Apply*` calls (src/InputThread.cpp:34-35) is not modelled.
- Raw-input capture is kept only as the outcome of start-up (`Setup`): `CreateHiddenWindow`, `InitializeRawInput`, the message pump and `GetRawInputData` are out. MMCSS registration is assumed to succeed whenever the thread priority is enabled.
- Floating point is replaced by exact reals: the microsecond conversions, the `double` percentile argument and the binary rounding of `ceil(0.95·n)`.
- The benchmarking itself is left out: the `Sleep(1)` loops, the timer boost around the boosted run and the pinning in `MeasureSleepP95OnMask`. Their p95 results are inputs (`Probes`), and `MeasureSleepP95OvershootUs` takes the measured durations.
- Tuner.MeasureSleepP95OvershootUs: requires at least one sample. With none, the source reads out of bounds; it always passes 48.
- The system queries are inputs (`SystemInfo`); only their fallbacks are modelled. `ReadCpuMHzFromRegistry` is an optional value that reads 0 on failure. `GetProcessAffinityMask` is assumed to leave both masks 0 when it fails.
- The registry API is an abstract map, keyed by an enumeration of the twelve value names (`Store.Spelling` gives the registry name of each). A read that fails leaves its output unchanged. A QWORD value does not fit a DWORD read. Creation failure is the `writable` flag. Only the one key the store uses is modelled.
- Store.ReadApplied: builds the configuration once from the seven reads rather than field by field; every field is overwritten either way.
- Ring.RingBuffer keeps `buffer_` as a sequence field, because the vector grows until it holds N samples.
- The watchdog thread, the message loop and `wWinMain` (src/main.cpp) are out. The restart rule at src/main.cpp:59-60 is used only in the start-up scenarios.
- AutoStartManager, TrayIcon, the dialog's window procedure, `ModeToText`, `ApplyMode`, `LoadSettings`, the status strings, `GetStatus` and Resource.h are not part of this model: they are glue around foreign calls or presentation.
- `InputThread`'s destructor (src/InputThread.cpp:13-15) is not modelled; it calls `Stop`, whose behaviour is covered.

## Findings

| source | as written | input that shows it | evidently intended | confidence | as-written member | corrected member |
|---|---|---|---|---|---|---|
| src/InputThread.cpp:34 | a start-up that fails (src/InputThread.cpp:156-167) clears `running_` but leaves the `std::thread` joinable, and `Stop` returns early when not running (src/InputThread.cpp:41), so the thread is never joined; the watchdog's restart (src/main.cpp:59-60) then move-assigns a new `std::thread` onto a joinable one, which calls `std::terminate` | `CreateHiddenWindow` fails on the first `Start`, then the watchdog sees `ShouldBeRunning() && !IsRunning()` and calls `Start` again | join the finished thread before starting a new one, and join in `Stop` even when the worker is no longer running | not executed | Worker.InputThread.StartAsWritten, Worker.InputThread.StopAsWritten, Worker.FailedStartupAsWritten | Worker.InputThread.Start, Worker.InputThread.Stop, Worker.FailedStartupCorrected |
