# ESP32 board layer: hardware timers and non-volatile storage

This project models two parts of the ESP32 board support layer in Dafny and
proves properties of the models.

**The hardware timer manager** (`HardTimer`, `hard_timer.dfy`)
- A pool of four timer slots. Each slot has a bit in the `claimed` mask and a
  "started" handle in `timers[]`.
- The allocator: `getNextTimer`, `claimTimer`, `unclaimTimer`,
  `hardTimerClaimed` and `hardTimerStarted`.
- The frequency resolver `getHardTimerStats`. It turns a requested frequency
  into a 16-bit prescaler and a tick count against the 80 MHz APB clock, with
  a greedy loop that halves the ticks and doubles the prescaler, and it writes
  back the frequency the hardware actually achieves.
- The lifecycle calls `setHardTimer` and `cancelHardTimer`, and the priority
  mapping `setPriority`.
- The pool is `class TimerPool`: the bitmask is a `bv8` field and the handles
  are an `array`. Vendor driver calls are recorded in a ghost log as
  `DriverCall` values, so the contracts can say what is programmed and in
  which order.

**The NVM wrapper** (`Nvm`, `nvm.dfy`)
- The `nvmBegan` and `threadLock` flags and the `THREAD_LOCK` macro
  (lock, or return false).
- `nvmInit`, `nvmMaxSize`, `nvmStop`, `nvmClear` and `nvmSetDefaults`.
- `keyToChar`, the little-endian encoding of integer keys into key strings.
- The typed integer and bool reads and writes (the `SET_NVS` and `GET_NVS`
  macros), and the char-array read and write.
- The wrapper is `class NvmState`. The vendor store is a `map` from the key
  string the store sees to an `Entry`. Every vendor call gets a boolean
  parameter saying whether it succeeded.

`arith.dfy` holds small lemmas about division and powers of two that the
proofs use. `wrappers.dfy` holds `Option` and `UInt8`.

### Behaviour a caller may not expect

The model follows the code as written.
- `cancelHardTimer` (src/board_esp32_timer.c:226-246) clears only the started
  handle; the claimed bit stays set. `HardTimer.CancelKeepsClaim` shows that
  after claim, start and cancel, the next claim gets slot 1 and not slot 0.
- `setHardTimer` (src/board_esp32_timer.c:248-292) never sets a claimed bit, so
  a slot can be started without being claimed. `getHardTimerStats` replaces a
  started but unclaimed slot with the next free one
  (src/board_esp32_timer.c:203-205), so a second request for that slot moves
  to another slot. `HardTimer.StartWithoutClaim` shows both.
- The board's test frequency of 290000 Hz resolves to 290909 Hz, which does
  not divide the 80 MHz clock (`HardTimer.TestFastFreqResolution`).
- The key string `keyToChar` builds (src/board_esp32_nvm.c:177-183) is passed
  to the store as a NUL-terminated string, so a zero low byte in an integer
  key ends it early and distinct integer keys can reach the store under the
  same key string (`Nvm.StoreKeyNotInjective`).

## Model

| member | source | states |
|---|---|---|
| HardTimer.SetPriority | src/board_esp32_timer.c:85-87 | the flag is 1 for priorities 0..84, 2 for 85..169, 4 for 170..254 and 8 for 255 |
| HardTimer.SetPriorityMonotone | src/board_esp32_timer.c:85-87 | a higher priority never gives a lower flag, and every flag is one of 1, 2, 4, 8 |
| HardTimer.TimerGroupsAreSlotBits | src/board_esp32_timer.c:51-56 | for each slot i, group + 2 * num of its hardware timer is i, so the bit hardTimerClaimed tests is the bit setTimerClaimed writes |
| HardTimer.HalveFacts | src/board_esp32_timer.c:195-198 | the halving loop keeps scalar * ticks, keeps the scalar a power of two within 1..65535, and stops with ticks odd or the scalar unable to double |
| HardTimer.TopPrescaler | src/board_esp32_timer.c:195 | a power-of-two scalar that can no longer double within 65535 is 32768 |
| HardTimer.DividerFacts | src/board_esp32_timer.c:183-199 | scalar * ticks equals 80 MHz / freq, 1 <= scalar <= 65535, ticks >= 1; ticks is 1 when the quotient fits the prescaler; otherwise the scalar is a power of two and ticks is odd or the scalar is 32768 |
| HardTimer.QuotientRoundTrip | src/board_esp32_timer.c:183-201 | clock / (clock / f) is at least f, and equals f when f divides the clock |
| HardTimer.AchievedFrequencyFacts | src/board_esp32_timer.c:201 | the written-back frequency is 80 MHz / (80 MHz / freq); it is never below the request and equals it when the request divides the clock |
| HardTimer.TestFastFreqResolution | src/board_esp32_timer.c:175-201 | 290000 Hz gives scalar 275, one tick and 290909 Hz, which does not divide the clock, and the status is SLIGHTLY_OFF for every real slot |
| HardTimer.TimerPool.constructor | src/board_esp32_timer.c:58-74 | the pool starts with no slot claimed or started and an empty driver log |
| HardTimer.TimerPool.GetTimer | src/board_esp32_timer.c:96-102 | there is a handle slot exactly when the id is not the sentinel, and it is the id's own entry |
| HardTimer.TimerPool.HardTimerStarted | src/board_esp32_timer.c:214-224 | true exactly when the id is a real slot whose handle is set; false for the sentinel |
| HardTimer.TimerPool.HardTimerClaimed | src/board_esp32_timer.c:154-159 | true exactly when the id is a real slot and bit id of the mask is set; false for the sentinel |
| HardTimer.TimerPool.FirstFreeFrom | src/board_esp32_timer.c:109-116 | the lowest slot from i upwards that is neither started nor claimed, and the sentinel exactly when there is none |
| HardTimer.TimerPool.ResolveTimer | src/board_esp32_timer.c:203-205 | a resolved real slot is claimed or not started; the result is the sentinel exactly when the request had to be replaced and no slot is free |
| HardTimer.TimerPool.GetNextTimer | src/board_esp32_timer.c:109-116 | the scan returns the lowest free slot, and the sentinel exactly when every slot is started or claimed |
| HardTimer.TimerPool.SetTimerClaimed | src/board_esp32_timer.c:124-135 | bit timer of the mask becomes state and every other bit keeps its value; the sentinel changes nothing |
| HardTimer.TimerPool.ClaimTimer | src/board_esp32_timer.c:137-143 | the result is the lowest free slot; it was unclaimed and not started and is now claimed; only its bit changes |
| HardTimer.TimerPool.UnclaimTimer | src/board_esp32_timer.c:145-152 | returns true exactly when the slot was claimed; clears that one bit; on false the mask is unchanged |
| HardTimer.TimerPool.GetHardTimerStats | src/board_esp32_timer.c:173-212 | the scalar and ticks obey the divider facts, the frequency written back is the achieved one, the slot is the resolved one, the status is FAIL exactly when no slot was found, and otherwise OK exactly when the request divides the clock; frequency, scalar and ticks are written even on FAIL |
| HardTimer.TimerPool.SetHardTimer | src/board_esp32_timer.c:248-292 | a null argument or a frequency of 0 or above 5 MHz is refused with nothing changed; otherwise the id and frequency hold the resolved slot and achieved frequency; it succeeds exactly when the slot is real and not started, and then only that slot's handle is set and the arm sequence is programmed; the claimed mask never changes |
| HardTimer.TimerPool.CancelHardTimer | src/board_esp32_timer.c:226-246 | returns true exactly when the slot was started; then only its handle is cleared and the cancel sequence is programmed; the claimed mask never changes; on false nothing changes |
| HardTimer.CancelKeepsClaim | src/board_esp32_timer.c:226-246 | from a fresh pool, claim gives slot 0, start and cancel succeed, slot 0 stays claimed and the next claim gives slot 1 |
| HardTimer.StartWithoutClaim | src/board_esp32_timer.c:248-292 | from a fresh pool, starting with the sentinel at 290000 Hz takes slot 0 at 290909 Hz without claiming it, and a later request for slot 0 is moved to slot 1 |
| Nvm.Cast | src/board_esp32_nvm.c:419-449 | conversion of DEFAULT_INT to the C type: the result is in the type's range, has the same remainder modulo 2^bits as the input, and equals the input when it is already in range |
| Nvm.KeyBytesAt | src/board_esp32_nvm.c:178-181 | byte i of the key encoding is (key >> 8i) mod 256 |
| Nvm.KeyBytesDecode | src/board_esp32_nvm.c:177-183 | decoding the key bytes little-endian gives back key mod 2^(8 * NVM_MAX_SIZE_BYTES) |
| Nvm.DecodeKeyBytes | src/board_esp32_nvm.c:177-183 | every byte string is the encoding of its own little-endian value, so the encoding is a bijection on keys below 2^(8n) |
| Nvm.CString | src/board_esp32_nvm.c:190-192 | the key string a byte array denotes is its prefix before the first zero byte |
| Nvm.ZeroLowByteKey | src/board_esp32_nvm.c:177-183 | a key whose low byte is zero reaches the store as the empty string |
| Nvm.StoreKeyNotInjective | src/board_esp32_nvm.c:177-192 | the keys 0 and 256 have different byte encodings but the same key string |
| Nvm.NonZeroKeyBytesKept | src/board_esp32_nvm.c:177-183 | a key with no zero byte reaches the store with all its bytes |
| Nvm.NvmState.constructor | src/board_esp32_nvm.c:33-35 | the wrapper starts not begun and unlocked over the existing flash contents |
| Nvm.NvmState.ThreadLock | src/board_esp32_nvm.c:37-41 | the lock is acquired exactly when it was free, and is held afterwards |
| Nvm.NvmState.ThreadUnlock | src/board_esp32_nvm.c:43 | the lock is free afterwards |
| Nvm.NvmState.KeyToChar | src/board_esp32_nvm.c:177-183 | the array holds the key's NVM_MAX_SIZE_BYTES little-endian bytes followed by the terminator |
| Nvm.NvmState.NvmInit | src/board_esp32_nvm.c:45-71 | already begun gives STARTED, the default size gives INVALID_SIZE, a held lock gives the lock code, and otherwise OK exactly when both vendor calls succeed; nvmBegan becomes true only on OK; the lock is as it was on every path |
| Nvm.NvmState.NvmMaxSize | src/board_esp32_nvm.c:73-81 | returns true with NVM_MAX_SIZE exactly when begun, and false with DEFAULT_NVM_SIZE otherwise |
| Nvm.NvmState.NvmStop | src/board_esp32_nvm.c:93-102 | returns whether the store was begun, and leaves it not begun |
| Nvm.NvmState.NvmClear | src/board_esp32_nvm.c:112-119 | returns whether the erase succeeded, and the store is empty after a successful erase |
| Nvm.NvmState.NvmSetDefaults | src/board_esp32_nvm.c:121-169 | a held lock, not begun, a size above the maximum and a failed clear each give their own code with the store untouched, in that order; otherwise the store is erased, the lock is released before re-init, re-init failure gives FAIL_INIT, and then the critical and environment codes follow; the stop check cannot fail, so FAIL_STOP comes only from those writers |
| Nvm.NvmState.WriteInt | src/board_esp32_nvm.c:185-201 | not begun or locked: false with nothing changed; otherwise the lock is released, the value is stored under the key string when the setter succeeds, and the result is true exactly when setter and commit both succeed |
| Nvm.NvmState.WriteBool | src/board_esp32_nvm.c:291-293 | as WriteInt, storing the byte 1 for true and 0 for false |
| Nvm.NvmState.GetNvs | src/board_esp32_nvm.c:203-219 | not begun or locked: false and no value; otherwise the lock is released, the value is the stored integer when the getter succeeds, and the result is false when defaults are refused and the value equals the default |
| Nvm.NvmState.GetInt | src/board_esp32_nvm.c:419-449 | as GetNvs, with DEFAULT_INT converted to the type as the refused default |
| Nvm.NvmState.GetBool | src/board_esp32_nvm.c:415-417 | as GetNvs on a byte, with DEFAULT_BOOL as the refused default; a nonzero byte reads as true |
| Nvm.NvmState.WriteCharArray | src/board_esp32_nvm.c:221-254 | not begun, length 0, length above maxLength or CHAR_LEN_ERROR are refused before locking; a held lock is refused; otherwise as WriteInt, storing the C string: the bytes of the value before its first NUL |
| Nvm.NvmState.GetCharArray | src/board_esp32_nvm.c:256-289 | not begun, a null buffer, maxLength 0 or a held lock are refused; otherwise it succeeds exactly when the size query finds a string whose stored size fits maxLength and the read succeeds, and then it yields the stored string; the lock is released |

## Left out

- Vendor timer driver: `timer_init`, `timer_set_alarm` and the other driver calls are recorded in the ghost log as `DriverCall` values. What they do to the timer registers is not modelled.
- Interrupts: the interrupt callback running, `HARD_TIMER_END` and the placement of code in RAM concern interrupt-context concurrency and are not modelled. Operations are taken to run one at a time.
- Other board files: the spinlock in `board_esp32_thread.c` (FreeRTOS internals are not shown), the GPIO and delay pass-throughs in `board_esp32_io.c` and `board_esp32_delay.c`, and the pin tables are not part of this model. Only `FREQ_MAX`, `NUM_TIMERS`, `TEST_FAST_FREQ` and the 80 MHz clock are taken from `board_esp32.h`.
- `HARD_TIMER_INVALID`: its value is not shown. The model uses 255; any value outside 0..3 behaves the same. Callers pass 0..3 or the sentinel, because the source does not bounds-check ids.
- Integer widths: the width of `freq_t` is not shown, so frequencies are unbounded naturals. All values that occur are at most 80000000, and scalar * ticks fits every C type involved, so no wrap-around arises.
- HardTimer.TimerPool.GetHardTimerStats: requires 0 < freq <= 80 MHz. Outside this range the C code divides by zero (freq 0, or a prescaler of 0 for freq above the clock). Its only caller, `setHardTimer`, never passes such a value.
- Priority width: the width of `timer_priority_t` is not shown. The model takes priorities as 8-bit values (`UInt8`), which the divisor `UINT8_MAX / 3` in `setPriority` suggests.
- HardTimer.TimerPool.ClaimTimer: the `hardTimerPriority` argument is not used by the source. It is a plain parameter here.
- Float and double storage: `nvmWriteFloat`, `nvmWriteDouble`, `nvmGetFloat` and `nvmGetDouble` copy IEEE bits with `memcpy`. This floating-point bit reinterpretation is not modelled, and neither are the commented-out byte loops.
- Vendor store: the internals of `nvs_*` and `nvs_flash_*` are abstract. The store is a map, and each call's success is a parameter. A setter that succeeds is taken to update the map even when the commit then fails.
- Nvm.NvmState.NvmClear: a failed erase is taken to leave the store unchanged.
- Nvm.NvmState.NvmSetDefaults: `nvmSetCritDefaults` and `nvmSetEnvDefaults` are not shown. Their return codes are parameters, and their writes to the store are not modelled.
- Nvm.NvmState.WriteCharArray: `charArraySize` is not shown. The length it reports is a parameter.
- Nvm.NvmState.GetCharArray: the size the store reports for a string is taken to be its length plus the terminator. What a failed second read leaves in the buffer is not modelled; the result is then no value.
- Nvm.NvmState.GetBool: the byte is read into a C `bool`. The model reads any nonzero byte as true.
- Configuration constants: `NVM_MAX_SIZE_BYTES`, `NVM_MAX_SIZE`, `DEFAULT_NVM_SIZE`, `NVM_SIZE`, `DEFAULT_INT`, `DEFAULT_BOOL` and `CHAR_LEN_ERROR` are not shown. They are fields of a `Config` value given to the constructor. `END_OF_CHAR` is taken to be 0.
- Key width: `nvm_size_t` is not shown, so keys are naturals. A shift by at least the key's width in `keyToChar` is not modelled.
- Lock codes: in `nvmInit` and `nvmSetDefaults`, `THREAD_LOCK` returns the value `false` from an enum-returning function. The model gives this value the codes `InitLockHeld` and `DefaultLockHeld`. The enumerators' values are not shown: if `NVM_OK` or `NVM_DEFAULT_OK` is 0, as C numbers a first enumerator, a caller cannot tell a held lock from success. The model keeps the two apart.
