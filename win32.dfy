/**
 * Fixed-width integer types and the Windows constants the tuner uses,
 * plus the bitwise AND of 64-bit affinity masks.
 *
 * Masks (DWORD_PTR on a 64-bit build) are naturals below 2^64; the bitwise
 * operators are defined arithmetically, bit by bit, so that proofs about
 * them use only division and remainder by 2.
 */
module Win32 {

  /** An optional value: an output a failed call does not produce. */
  datatype Option<T> = None | Some(value: T)

  const TWO_TO_THE_32: int := 0x1_0000_0000
  const TWO_TO_THE_64: int := 0x1_0000_0000_0000_0000

  /** BYTE */
  type u8 = x: int | 0 <= x < 0x100
  /** DWORD and UINT */
  type u32 = x: int | 0 <= x < TWO_TO_THE_32
  /** ULONGLONG and DWORD_PTR */
  type u64 = x: int | 0 <= x < TWO_TO_THE_64
  /** int (32-bit two's complement) */
  type i32 = x: int | -0x8000_0000 <= x < 0x8000_0000

  // Process priority classes (winbase.h).
  const NORMAL_PRIORITY_CLASS: u32 := 0x20
  const HIGH_PRIORITY_CLASS: u32 := 0x80

  // Thread priority levels (winbase.h).
  const THREAD_PRIORITY_NORMAL: i32 := 0
  const THREAD_PRIORITY_HIGHEST: i32 := 2
  const THREAD_PRIORITY_TIME_CRITICAL: i32 := 15

  /** The `(DWORD)` cast of an `int`: two's complement reinterpretation. */
  function DwordOfInt(i: i32): (d: u32)
    ensures i >= 0 ==> d == i
    ensures i < 0 ==> d >= 0x8000_0000
  {
    if i < 0 then i + TWO_TO_THE_32 else i
  }

  /** The `(int)` cast of a DWORD: two's complement reinterpretation. */
  function IntOfDword(d: u32): (i: i32)
    ensures d < 0x8000_0000 ==> i == d
    ensures d >= 0x8000_0000 ==> i < 0
  {
    if d >= 0x8000_0000 then d - TWO_TO_THE_32 else d
  }

  /** The two casts are inverse: storing a thread priority as a DWORD loses nothing. */
  lemma IntDwordRoundTrip(i: i32)
    ensures IntOfDword(DwordOfInt(i)) == i
  {
  }

  /** Bitwise AND of two naturals, bit by bit from the least significant one. */
  function BitAnd(a: nat, b: nat): (r: nat)
    ensures r <= a && r <= b
    decreases a
  {
    if a == 0 || b == 0 then 0
    else 2 * BitAnd(a / 2, b / 2) + (if a % 2 == 1 && b % 2 == 1 then 1 else 0)
  }

  /** x is a single bit: 1, 2, 4, ... */
  predicate IsPowerOfTwo(x: nat)
    decreases x
  {
    x == 1 || (x >= 2 && x % 2 == 0 && IsPowerOfTwo(x / 2))
  }

  /** The bitwise complement `~m` of a DWORD_PTR. */
  function Not64(m: u64): (r: u64)
    ensures m + r == TWO_TO_THE_64 - 1
  {
    TWO_TO_THE_64 - 1 - m
  }

  /** `~m + 1` on a DWORD_PTR, wrapping modulo 2^64: the two's complement negation. */
  function Negate64(m: u64): (r: u64)
    ensures m == 0 ==> r == 0
    ensures m != 0 ==> r == TWO_TO_THE_64 - m
  {
    (Not64(m) + 1) % TWO_TO_THE_64
  }

  /** x AND x == x. */
  lemma {:induction false} BitAndSelf(x: nat)
    ensures BitAnd(x, x) == x
    decreases x
  {
    if x != 0 {
      BitAndSelf(x / 2);
    }
  }

  /** A non-zero submask makes the mask non-zero. */
  lemma BitAndBelow(b: nat, m: nat)
    requires b != 0 && BitAnd(b, m) == b
    ensures m != 0
  {
  }

  /** Every bit set in b is set in m. */
  predicate IsSubmask(b: nat, m: nat) {
    BitAnd(b, m) == b
  }

  /**
   * The operating-system state the input worker changes, for the current
   * process and its worker thread. Each Win32 call below is a function from
   * the state before the call to the state after it.
   */
  datatype Os = Os(
    /** The process affinity mask; thread masks must be subsets of it. */
    processAffinity: u64,
    /** The worker thread's affinity mask. */
    threadAffinity: u64,
    /** The process priority class. */
    priorityClass: u32,
    /** The worker thread's priority level. */
    threadPriority: i32,
    /** Whether dynamic priority boosting is disabled for the worker thread. */
    boostDisabled: bool,
    /** The outstanding `timeBeginPeriod` requests, by period in milliseconds, oldest first. */
    timerRequests: seq<u32>)

  /** A thread's affinity is a non-empty subset of its process's. */
  ghost predicate ValidOs(os: Os) {
    os.threadAffinity != 0 && IsSubmask(os.threadAffinity, os.processAffinity)
  }

  /**
   * A new worker thread starts with the process affinity, normal priority
   * and dynamic boosting enabled.
   */
  function StartThread(os: Os): (r: Os)
    requires ValidOs(os)
    ensures ValidOs(r)
  {
    BitAndSelf(os.processAffinity);
    BitAndBelow(os.threadAffinity, os.processAffinity);
    os.(threadAffinity := os.processAffinity, threadPriority := THREAD_PRIORITY_NORMAL, boostDisabled := false)
  }

  /** `SetThreadAffinityMask` succeeds exactly for a non-zero subset of the process mask. */
  predicate AffinityAccepted(os: Os, mask: u64) {
    mask != 0 && IsSubmask(mask, os.processAffinity)
  }

  /**
   * `SetThreadAffinityMask`: on success the thread takes the mask and the
   * previous mask is returned; on failure nothing changes and 0 is returned.
   */
  function SetThreadAffinityMask(os: Os, mask: u64): (r: (Os, u64))
    requires ValidOs(os)
    ensures ValidOs(r.0)
    ensures r.1 == 0 <==> !AffinityAccepted(os, mask)
  {
    if AffinityAccepted(os, mask) then (os.(threadAffinity := mask), os.threadAffinity) else (os, 0)
  }

  /** `SetThreadPriorityBoost(thread, disable)` */
  function SetThreadPriorityBoost(os: Os, disable: bool): Os {
    os.(boostDisabled := disable)
  }

  /** `SetThreadPriority(thread, level)` */
  function SetThreadPriority(os: Os, level: i32): Os {
    os.(threadPriority := level)
  }

  /** `SetPriorityClass(GetCurrentProcess(), cls)` */
  function SetPriorityClass(os: Os, cls: u32): Os {
    os.(priorityClass := cls)
  }

  /**
   * The outstanding requests with the most recent one for `ms` cancelled.
   * Windows keeps a count per period, so only the multiset of requests
   * matters (RemoveLatestCounts); the order is kept to make the
   * bookkeeping easy to state.
   */
  function RemoveLatest(s: seq<u32>, ms: u32): (r: seq<u32>)
    ensures ms in s ==> |r| == |s| - 1
    ensures ms !in s ==> r == s
    decreases |s|
  {
    if s == [] then []
    else if s[|s| - 1] == ms then s[..|s| - 1]
    else RemoveLatest(s[..|s| - 1], ms) + [s[|s| - 1]]
  }

  /** Cancelling removes exactly one matching request when there is one, as a reference count does. */
  lemma {:induction false} RemoveLatestCounts(s: seq<u32>, ms: u32)
    ensures multiset(RemoveLatest(s, ms)) == multiset(s) - multiset{ms}
    decreases |s|
  {
    if s != [] {
      var init, last := s[..|s| - 1], s[|s| - 1];
      assert s == init + [last];
      if last != ms {
        RemoveLatestCounts(init, ms);
      }
    }
  }

  /** Cancelling the request just made restores the earlier requests. */
  lemma CancelLatest(s: seq<u32>, ms: u32)
    ensures RemoveLatest(s + [ms], ms) == s
  {
    assert (s + [ms])[..|s|] == s;
  }

  /** `timeBeginPeriod(ms)`: one more outstanding request; a period of 0 is refused. */
  function TimeBeginPeriod(os: Os, ms: u32): (r: Os)
    ensures ms != 0 ==> r == os.(timerRequests := os.timerRequests + [ms])
    ensures ms == 0 ==> r == os
  {
    if ms == 0 then os else os.(timerRequests := os.timerRequests + [ms])
  }

  /** `timeEndPeriod(ms)`: cancels one matching request; without one it fails and changes nothing. */
  function TimeEndPeriod(os: Os, ms: u32): Os {
    os.(timerRequests := RemoveLatest(os.timerRequests, ms))
  }
}
