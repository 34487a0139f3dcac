/**
  The ESP32 hardware timer manager: a pool of four timer slots, each with a
  "claimed" bit in a bitmask and a "started" handle, a resolver that turns a
  requested frequency into a 16-bit prescaler and a tick count against the
  80 MHz APB clock, and the start / cancel lifecycle.

  The vendor driver calls (timer_init, timer_set_alarm, ...) are not modelled
  as register effects; each call is recorded, with its arguments, in a ghost
  log so that the contracts can say what is programmed and in which order.
 */
module HardTimer {
  import opened Wrappers
  import opened Arith

  /** Frequency of the APB clock that drives the timers, in Hz. */
  const APB_CLK_FREQ: nat := 80_000_000
  /** Largest prescaler value: the prescaler is a 16-bit register. */
  const SCALAR_MAX: nat := 65535
  /** Highest frequency a caller may request from SetHardTimer, in Hz. */
  const FREQ_MAX: nat := 5_000_000
  /** Number of hardware timers managed. */
  const NUM_TIMERS: nat := 4
  /** Frequency used by the board's timer test, in Hz. */
  const TEST_FAST_FREQ: nat := 290_000
  /** Value of HARD_TIMER_INVALID, chosen here; any value outside 0..3 behaves the same. */
  const HARD_TIMER_INVALID: int := 255

  /** A timer identifier as callers pass it: a slot index or the sentinel. */
  type TimerId = t: int | 0 <= t < NUM_TIMERS || t == HARD_TIMER_INVALID
    witness HARD_TIMER_INVALID

  /** The identity of a caller's interrupt callback (a function pointer). */
  type Callback = nat

  /** The hardware address of a timer: its group and its number inside the group. */
  datatype TimerGroup = TimerGroup(group: nat, num: nat)

  /** The fixed binding of slots to hardware timers. */
  const timerGroups: seq<TimerGroup> :=
    [TimerGroup(0, 0), TimerGroup(1, 0), TimerGroup(0, 1), TimerGroup(1, 1)]

  /** Outcome of resolving a frequency request. */
  datatype HardTimerStatus = HardTimerOk | HardTimerSlightlyOff | HardTimerFail

  /** One call into the vendor timer driver, with the arguments that vary. */
  datatype DriverCall =
    | TimerInit(timer: TimerGroup, divider: nat)
    | SetCounterValue(timer: TimerGroup, value: nat)
    | TimerStart(timer: TimerGroup)
    | TimerPause(timer: TimerGroup)
    | IsrCallbackAdd(timer: TimerGroup, callback: Callback, flags: nat)
    | IsrCallbackRemove(timer: TimerGroup)
    | SetAlarmValue(timer: TimerGroup, ticks: nat)
    | SetAutoReload(timer: TimerGroup, enable: bool)
    | SetAlarm(timer: TimerGroup, enable: bool)
    | TimerDeinit(timer: TimerGroup)

  /** What SetHardTimer asks of the driver to configure and arm a timer. */
  function ArmSequence(g: TimerGroup, scalar: nat, ticks: nat, callback: Callback, flags: nat): seq<DriverCall>
  {
    [TimerInit(g, scalar), SetCounterValue(g, 0), TimerStart(g), IsrCallbackAdd(g, callback, flags),
     SetAlarmValue(g, ticks), SetAutoReload(g, true), SetAlarm(g, true), TimerStart(g)]
  }

  /** What CancelHardTimer asks of the driver to stop and release a timer. */
  function CancelSequence(g: TimerGroup): seq<DriverCall>
  {
    [SetAlarm(g, false), TimerPause(g), SetCounterValue(g, 0), IsrCallbackRemove(g), TimerDeinit(g)]
  }

  // ---------------------------------------------------------------------
  // Powers of two and the interrupt priority mapping
  // ---------------------------------------------------------------------

  /** A power of two that lies in [lo, 2*lo) for a power of two lo is lo itself. */
  lemma {:induction false} Pow2Between(s: nat, lo: nat)
    requires IsPow2(s) && IsPow2(lo) && lo <= s < 2 * lo
    ensures s == lo
    decreases lo
  {
    if lo != 1 {
      assert s != 1;
      Pow2Between(s / 2, lo / 2);
    }
  }

  /**
    Maps an 8-bit priority onto the interrupt flag 1 << (priority / 85):
    0..84 -> 1, 85..169 -> 2, 170..254 -> 4 and only 255 -> 8.
   */
  function SetPriority(priority: UInt8): (flag: nat)
    ensures flag == if priority < 85 then 1 else if priority < 170 then 2 else if priority < 255 then 4 else 8
  {
    Pow2(priority / (255 / 3))
  }

  /** Higher priorities never map to a lower level flag. */
  lemma SetPriorityMonotone(p: UInt8, q: UInt8)
    requires p <= q
    ensures SetPriority(p) <= SetPriority(q)
    ensures SetPriority(q) == 1 || SetPriority(q) == 2 || SetPriority(q) == 4 || SetPriority(q) == 8
  {
  }

  // ---------------------------------------------------------------------
  // Slot mapping and the claimed bitmask
  // ---------------------------------------------------------------------

  /** Bit i of an 8-bit mask. */
  predicate Bit(mask: bv8, i: nat)
    requires i < 8
  {
    (mask >> i) & 1 == 1
  }

  /** The bit an index selects in the claimed mask is group + 2 * num, which is the slot index. */
  lemma TimerGroupsAreSlotBits()
    ensures |timerGroups| == NUM_TIMERS
    ensures forall i :: 0 <= i < NUM_TIMERS ==> timerGroups[i].group + 2 * timerGroups[i].num == i
  {
  }

  // ---------------------------------------------------------------------
  // The frequency resolver as functions of the request
  // ---------------------------------------------------------------------

  /** The greedy loop: halve the ticks and double the scalar while ticks is even and the scalar may grow. */
  function Halve(scalar: nat, ticks: nat): (st: (nat, nat))
    requires 1 <= scalar <= SCALAR_MAX
    decreases SCALAR_MAX - scalar
  {
    if ticks % 2 == 0 && scalar * 2 <= SCALAR_MAX then Halve(scalar * 2, ticks / 2) else (scalar, ticks)
  }

  /** The loop keeps the product, keeps the scalar a power of two in range, and stops where it must. */
  lemma {:induction false} HalveFacts(scalar: nat, ticks: nat)
    requires 1 <= scalar <= SCALAR_MAX && IsPow2(scalar)
    ensures Halve(scalar, ticks).0 * Halve(scalar, ticks).1 == scalar * ticks
    ensures scalar <= Halve(scalar, ticks).0 <= SCALAR_MAX && IsPow2(Halve(scalar, ticks).0)
    ensures Halve(scalar, ticks).1 % 2 == 1 || Halve(scalar, ticks).0 * 2 > SCALAR_MAX
    decreases SCALAR_MAX - scalar
  {
    if ticks % 2 == 0 && scalar * 2 <= SCALAR_MAX {
      assert scalar * ticks == (scalar * 2) * (ticks / 2);
      HalveFacts(scalar * 2, ticks / 2);
    }
  }

  /** The prescaler and tick count chosen for a request of freq Hz. */
  function Divider(freq: nat): (st: (nat, nat))
    requires 0 < freq <= APB_CLK_FREQ
  {
    var target := APB_CLK_FREQ / freq;
    if target <= SCALAR_MAX then (target, 1) else Halve(1, target)
  }

  /** The frequency the hardware actually produces, which the resolver writes back. */
  function AchievedFrequency(freq: nat): nat
    requires 0 < freq <= APB_CLK_FREQ
  {
    var st := Divider(freq);
    DividerFacts(freq);
    APB_CLK_FREQ / (st.0 * st.1)
  }

  /** Status of a resolution, given the slot it resolved to. */
  function StatsStatus(freq: nat, resolved: TimerId): HardTimerStatus
    requires 0 < freq
  {
    if resolved == HARD_TIMER_INVALID then HardTimerFail
    else if APB_CLK_FREQ % freq != 0 then HardTimerSlightlyOff
    else HardTimerOk
  }

  /** A power of two no larger than SCALAR_MAX whose double exceeds it is 32768. */
  lemma TopPrescaler(s: nat)
    requires IsPow2(s) && s <= SCALAR_MAX && s * 2 > SCALAR_MAX
    ensures s == 32768
  {
    assert IsPow2(32768);
    Pow2Between(s, 32768);
  }

  /** The divider pair meets every hardware constraint and multiplies out to the clock ratio. */
  lemma DividerFacts(freq: nat)
    requires 0 < freq <= APB_CLK_FREQ
    ensures Divider(freq).0 * Divider(freq).1 == APB_CLK_FREQ / freq
    ensures 1 <= Divider(freq).0 <= SCALAR_MAX && Divider(freq).1 >= 1
    ensures APB_CLK_FREQ / freq <= SCALAR_MAX ==> Divider(freq) == (APB_CLK_FREQ / freq, 1)
    ensures APB_CLK_FREQ / freq > SCALAR_MAX ==>
      IsPow2(Divider(freq).0) && (Divider(freq).1 % 2 == 1 || Divider(freq).0 == 32768)
  {
    var target := APB_CLK_FREQ / freq;
    assert target >= 1;
    if target > SCALAR_MAX {
      HalveFacts(1, target);
      var st := Halve(1, target);
      if st.1 % 2 == 0 {
        TopPrescaler(st.0);
      }
    }
  }

  lemma QuotientTimesDivisor(a: nat, f: nat)
    requires 0 < f <= a
    ensures (a / f) * f <= a && a / f >= 1
    ensures a % f == 0 ==> (a / f) * f == a
  {
  }

  /** Dividing a clock by its own quotient never undershoots, and is exact on exact division. */
  lemma QuotientRoundTrip(a: nat, f: nat)
    requires 0 < f <= a
    ensures a / f >= 1
    ensures a / (a / f) >= f
    ensures a % f == 0 ==> a / (a / f) == f
  {
    var q := a / f;
    QuotientTimesDivisor(a, f);
    DivLowerBound(a, q, f);
    if a % f == 0 {
      DivExact(a, q, f);
    }
  }

  /** The written-back frequency is clock / (clock / freq): never below the request, equal to it on exact division. */
  lemma AchievedFrequencyFacts(freq: nat)
    requires 0 < freq <= APB_CLK_FREQ
    ensures AchievedFrequency(freq) == APB_CLK_FREQ / (APB_CLK_FREQ / freq)
    ensures AchievedFrequency(freq) >= freq
    ensures APB_CLK_FREQ % freq == 0 ==> AchievedFrequency(freq) == freq
  {
    DividerFacts(freq);
    QuotientRoundTrip(APB_CLK_FREQ, freq);
  }

  /** The board's test frequency of 290000 Hz resolves to prescaler 275, one tick, and 290909 Hz, which is not exact. */
  lemma TestFastFreqResolution()
    ensures Divider(TEST_FAST_FREQ) == (275, 1)
    ensures AchievedFrequency(TEST_FAST_FREQ) == 290909
    ensures APB_CLK_FREQ % AchievedFrequency(TEST_FAST_FREQ) != 0
    ensures forall t: TimerId :: t != HARD_TIMER_INVALID ==> StatsStatus(TEST_FAST_FREQ, t) == HardTimerSlightlyOff
  {
    assert APB_CLK_FREQ / TEST_FAST_FREQ == 275;
  }

  // ---------------------------------------------------------------------
  // The timer pool
  // ---------------------------------------------------------------------

  class TimerPool {
    /** Bit i set: slot i is claimed. */
    var claimed: bv8
    /** timers[i] is the slot's handle; Some means started. */
    const timers: array<Option<TimerGroup>>
    /** The driver calls made so far. */
    ghost var driverLog: seq<DriverCall>

    ghost predicate Valid()
      reads this, timers
    {
      && timers.Length == NUM_TIMERS
      && claimed & 0xF0 == 0
      && forall i :: 0 <= i < NUM_TIMERS && timers[i].Some? ==> timers[i].value == timerGroups[i]
    }

    /** All slots unclaimed and unstarted, as at process start. */
    constructor ()
      ensures Valid() && fresh(timers) && driverLog == []
      ensures claimed == 0 && forall i :: 0 <= i < NUM_TIMERS ==> timers[i] == None
      ensures forall i :: 0 <= i < NUM_TIMERS ==> !HardTimerClaimed(i) && !HardTimerStarted(i)
    {
      claimed := 0;
      timers := new Option<TimerGroup>[NUM_TIMERS](_ => None);
      driverLog := [];
    }

    /** The handle slot for a timer id: none for the sentinel, the id's own entry otherwise. */
    function GetTimer(timer: TimerId): (slot: Option<nat>)
      ensures slot.Some? <==> timer != HARD_TIMER_INVALID
      ensures slot.Some? ==> slot.value == timer && slot.value < NUM_TIMERS
    {
      if timer == HARD_TIMER_INVALID then None else Some(timer)
    }

    /** Whether a timer's handle is set; false for the sentinel. */
    predicate HardTimerStarted(timer: TimerId)
      requires Valid()
      reads this, timers
      ensures HardTimerStarted(timer) <==>
        timer != HARD_TIMER_INVALID && timers[timer] == Some(timerGroups[timer])
    {
      match GetTimer(timer)
      case None => false
      case Some(p) => timers[p].Some?
    }

    /** Whether a timer's claimed bit is set; false for the sentinel. */
    predicate HardTimerClaimed(timer: TimerId)
      reads this
      ensures HardTimerClaimed(timer) <==> timer != HARD_TIMER_INVALID && Bit(claimed, timer)
    {
      timer != HARD_TIMER_INVALID &&
      claimed & (1 << (timerGroups[timer].group + timerGroups[timer].num * 2)) != 0
    }

    /** Neither started nor claimed. */
    predicate IsFree(i: nat)
      requires Valid() && i < NUM_TIMERS
      reads this, timers
    {
      !HardTimerStarted(i) && !HardTimerClaimed(i)
    }

    /** The lowest free slot at index i or above, or the sentinel. */
    function FirstFreeFrom(i: nat): (r: TimerId)
      requires Valid() && i <= NUM_TIMERS
      reads this, timers
      ensures r == HARD_TIMER_INVALID <==> forall j :: i <= j < NUM_TIMERS ==> !IsFree(j)
      ensures r != HARD_TIMER_INVALID ==>
        i <= r < NUM_TIMERS && IsFree(r) && forall j :: i <= j < r ==> !IsFree(j)
      decreases NUM_TIMERS - i
    {
      if i == NUM_TIMERS then HARD_TIMER_INVALID
      else if IsFree(i) then i
      else FirstFreeFrom(i + 1)
    }

    /** The slot getNextTimer returns. */
    function NextAvailable(): TimerId
      requires Valid()
      reads this, timers
    {
      FirstFreeFrom(0)
    }

    /** The slot getHardTimerStats uses for a requested id. */
    function ResolveTimer(timer: TimerId): (r: TimerId)
      requires Valid()
      reads this, timers
      ensures r != HARD_TIMER_INVALID ==> HardTimerClaimed(r) || !HardTimerStarted(r)
      ensures r == HARD_TIMER_INVALID <==>
        (timer == HARD_TIMER_INVALID || (!HardTimerClaimed(timer) && HardTimerStarted(timer)))
        && forall j :: 0 <= j < NUM_TIMERS ==> !IsFree(j)
    {
      if (!HardTimerClaimed(timer) && HardTimerStarted(timer)) || timer == HARD_TIMER_INVALID then
        NextAvailable()
      else
        timer
    }

    /** Linear scan for the lowest slot that is neither started nor claimed. */
    method GetNextTimer() returns (timer: TimerId)
      requires Valid()
      ensures timer == NextAvailable()
      ensures timer != HARD_TIMER_INVALID ==>
        IsFree(timer) && forall j :: 0 <= j < timer ==> !IsFree(j)
      ensures timer == HARD_TIMER_INVALID <==> forall j :: 0 <= j < NUM_TIMERS ==> !IsFree(j)
    {
      var i := 0;
      while i < NUM_TIMERS
        invariant 0 <= i <= NUM_TIMERS
        invariant forall j :: 0 <= j < i ==> !IsFree(j)
        invariant FirstFreeFrom(i) == FirstFreeFrom(0)
      {
        if !HardTimerStarted(i) && !HardTimerClaimed(i) {
          return i;
        }
        i := i + 1;
      }
      return HARD_TIMER_INVALID;
    }

    /** Sets or clears one slot's claimed bit; the sentinel changes nothing. */
    method SetTimerClaimed(timer: TimerId, state: bool)
      requires Valid()
      modifies this`claimed
      ensures Valid()
      ensures timer == HARD_TIMER_INVALID ==> claimed == old(claimed)
      ensures forall i :: 0 <= i < 8 ==> Bit(claimed, i) == (if i == timer then state else Bit(old(claimed), i))
    {
      if timer == HARD_TIMER_INVALID {
        return;
      }
      if state {
        claimed := claimed | (1 << timer);
      } else {
        claimed := claimed & !(1 << timer);
      }
    }

    /** Claims the lowest free slot; the priority argument is not used. */
    method ClaimTimer(priority: nat) returns (timer: TimerId)
      requires Valid()
      modifies this`claimed
      ensures Valid()
      ensures timer == old(NextAvailable())
      ensures timer != HARD_TIMER_INVALID ==>
        !old(HardTimerClaimed(timer)) && !HardTimerStarted(timer) && HardTimerClaimed(timer)
      ensures forall i :: 0 <= i < 8 ==> Bit(claimed, i) == (Bit(old(claimed), i) || i == timer)
    {
      timer := GetNextTimer();
      if timer != HARD_TIMER_INVALID {
        SetTimerClaimed(timer, true);
      }
    }

    /** Releases a claimed slot; fails without change when it is not claimed. */
    method UnclaimTimer(timer: TimerId) returns (ok: bool)
      requires Valid()
      modifies this`claimed
      ensures Valid()
      ensures ok == old(HardTimerClaimed(timer))
      ensures !ok ==> claimed == old(claimed)
      ensures forall i :: 0 <= i < 8 ==> Bit(claimed, i) == (Bit(old(claimed), i) && i != timer)
    {
      if HardTimerClaimed(timer) {
        SetTimerClaimed(timer, false);
        return true;
      }
      assert forall i :: 0 <= i < 8 && i == timer ==> !Bit(claimed, i);
      return false;
    }

    /**
      Resolves a request of freq Hz: the prescaler and tick count, the frequency
      actually achieved, and the slot to use.
     */
    method GetHardTimerStats(freq: nat, timer: TimerId)
      returns (status: HardTimerStatus, freqOut: nat, timerOut: TimerId, scalar: nat, ticks: nat)
      requires Valid()
      requires 0 < freq <= APB_CLK_FREQ
      ensures (scalar, ticks) == Divider(freq)
      ensures scalar * ticks == APB_CLK_FREQ / freq
      ensures 1 <= scalar <= SCALAR_MAX && ticks >= 1
      ensures APB_CLK_FREQ / freq <= SCALAR_MAX ==> ticks == 1
      ensures APB_CLK_FREQ / freq > SCALAR_MAX ==> IsPow2(scalar) && (ticks % 2 == 1 || scalar == 32768)
      ensures freqOut == AchievedFrequency(freq) == APB_CLK_FREQ / (APB_CLK_FREQ / freq)
      ensures timerOut == ResolveTimer(timer)
      ensures status == StatsStatus(freq, timerOut)
      ensures status == HardTimerFail <==> timerOut == HARD_TIMER_INVALID
      ensures status != HardTimerFail ==> (status == HardTimerOk <==> APB_CLK_FREQ % freq == 0)
    {
      status := HardTimerOk;
      if APB_CLK_FREQ % freq != 0 {
        status := HardTimerSlightlyOff;
      }
      var target := APB_CLK_FREQ / freq;
      if target <= SCALAR_MAX {
        scalar := target;
        ticks := 1;
      } else {
        scalar := 1;
        ticks := target;
        while ticks % 2 == 0 && scalar * 2 <= SCALAR_MAX
          invariant 1 <= scalar <= SCALAR_MAX
          invariant Halve(scalar, ticks) == Halve(1, target)
          decreases SCALAR_MAX - scalar
        {
          ticks := ticks / 2;
          scalar := scalar * 2;
        }
      }
      DividerFacts(freq);
      AchievedFrequencyFacts(freq);
      freqOut := APB_CLK_FREQ / (scalar * ticks);
      timerOut := timer;
      if (!HardTimerClaimed(timerOut) && HardTimerStarted(timerOut)) || timerOut == HARD_TIMER_INVALID {
        timerOut := GetNextTimer();
      }
      if timerOut == HARD_TIMER_INVALID {
        return HardTimerFail, freqOut, timerOut, scalar, ticks;
      }
    }

    /** The request SetHardTimer refuses before touching anything. */
    static predicate Rejected(timer: Option<TimerId>, freq: Option<nat>, callback: Option<Callback>)
    {
      callback.None? || freq.None? || timer.None? || freq.value == 0 || freq.value > FREQ_MAX
    }

    /**
      Starts a periodic timer at (about) freq Hz calling function. The id and the
      frequency are in-out: on return they hold the slot used and the frequency achieved.
     */
    method SetHardTimer(timer: Option<TimerId>, freq: Option<nat>, callback: Option<Callback>, priority: UInt8)
      returns (ok: bool, timerOut: Option<TimerId>, freqOut: Option<nat>)
      requires Valid()
      modifies timers, this`driverLog
      ensures Valid()
      ensures claimed == old(claimed)
      ensures Rejected(timer, freq, callback) ==>
        !ok && timerOut == timer && freqOut == freq && unchanged(timers) && driverLog == old(driverLog)
      ensures !Rejected(timer, freq, callback) ==>
        var r := old(ResolveTimer(timer.value));
        && freqOut == Some(AchievedFrequency(freq.value))
        && timerOut == Some(r)
        && ok == (r != HARD_TIMER_INVALID && !old(HardTimerStarted(r)))
        && (ok ==>
            && timers[r] == Some(timerGroups[r])
            && (forall i :: 0 <= i < NUM_TIMERS && i != r ==> timers[i] == old(timers[i]))
            && driverLog == old(driverLog) + ArmSequence(timerGroups[r], Divider(freq.value).0,
                                                         Divider(freq.value).1, callback.value, SetPriority(priority)))
        && (!ok ==> unchanged(timers) && driverLog == old(driverLog))
    {
      if callback.None? || freq.None? || timer.None? {
        return false, timer, freq;
      }
      if freq.value == 0 || freq.value > FREQ_MAX {
        return false, timer, freq;
      }
      var status, f, t, scalar, ticks := GetHardTimerStats(freq.value, timer.value);
      timerOut, freqOut := Some(t), Some(f);
      if status == HardTimerFail {
        return false, timerOut, freqOut;
      }
      if !HardTimerStarted(t) {
        var g := timerGroups[t];
        timers[t] := Some(g);
        driverLog := driverLog + ArmSequence(g, scalar, ticks, callback.value, SetPriority(priority));
        return true, timerOut, freqOut;
      }
      return false, timerOut, freqOut;
    }

    /** Stops a started timer and clears its handle; the claimed bit is left as it is. */
    method CancelHardTimer(timer: TimerId) returns (ok: bool)
      requires Valid()
      modifies timers, this`driverLog
      ensures Valid()
      ensures claimed == old(claimed)
      ensures ok == old(HardTimerStarted(timer))
      ensures ok ==>
        && timers[timer] == None
        && (forall i :: 0 <= i < NUM_TIMERS && i != timer ==> timers[i] == old(timers[i]))
        && driverLog == old(driverLog) + CancelSequence(timerGroups[timer])
      ensures !ok ==> unchanged(timers) && driverLog == old(driverLog)
    {
      if HardTimerStarted(timer) {
        var p := GetTimer(timer).value;
        driverLog := driverLog + CancelSequence(timers[p].value);
        timers[p] := None;
        return true;
      }
      return false;
    }
  }

  // ---------------------------------------------------------------------
  // Call sequences from a fresh pool
  // ---------------------------------------------------------------------

  /**
    Claim, start and cancel: cancelling leaves the slot claimed, so the next
    claim gets slot 1 rather than slot 0.
   */
  method CancelKeepsClaim() returns (first: TimerId, started: bool, cancelled: bool, stillClaimed: bool, next: TimerId)
    ensures first == 0 && started && cancelled && stillClaimed && next == 1
  {
    var pool := new TimerPool();
    assert pool.IsFree(0);
    first := pool.ClaimTimer(0);
    var t, f;
    started, t, f := pool.SetHardTimer(Some(first), Some(1000), Some(0), 0);
    cancelled := pool.CancelHardTimer(first);
    stillClaimed := pool.HardTimerClaimed(first);
    assert !Bit(pool.claimed, 1) by {
      assert !Bit(0, 1);
    }
    assert !pool.IsFree(0) && pool.IsFree(1);
    next := pool.ClaimTimer(0);
  }

  /**
    Starting with the sentinel takes slot 0 without claiming it; asking again
    for slot 0 (started, unclaimed) is silently moved to slot 1.
   */
  method StartWithoutClaim() returns (t0: Option<TimerId>, f0: Option<nat>, claimed0: bool, t1: Option<TimerId>)
    ensures t0 == Some(0) && f0 == Some(290909) && !claimed0 && t1 == Some(1)
  {
    var pool := new TimerPool();
    var ok;
    TestFastFreqResolution();
    assert pool.IsFree(0);
    ok, t0, f0 := pool.SetHardTimer(Some(HARD_TIMER_INVALID), Some(TEST_FAST_FREQ), Some(7), 255);
    claimed0 := pool.HardTimerClaimed(0);
    assert !pool.IsFree(0) && pool.IsFree(1);
    var f1;
    ok, t1, f1 := pool.SetHardTimer(Some(0), Some(TEST_FAST_FREQ), Some(7), 255);
  }
}
