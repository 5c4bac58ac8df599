# Battery-shunt telemetry firmware, modelled in Dafny

This project models the two stateful parts of an ESP32 battery monitor that
samples a shunt's current and the bus voltage, counts coulombs into a
remaining-capacity estimate, averages power per minute and per hour, publishes
the figures over a Bluetooth LE GATT characteristic and saves its state to
flash every five minutes.

- `options.dfy` (`Options`): the optional value used for missing keys, an
  unreadable status file and a save that did not happen.
- `wire.dfy` (`Wire`): Python's `int()` on a float (truncation toward zero),
  MicroPython's `struct.pack("<h", v)`, which stores the low 16 bits of `v`
  without a range check, and the 10-byte characteristic value of five
  little-endian int16 fields.
- `history.dfy` (`History`): `deque(xs, maxlen)` and `append` on a bounded
  deque, `sum` and the mean, and the two derived figures `wh_last_h` and
  `wh_last_d`.
- `accounting.dfy` (`Accounting`): the accounting engine as pure functions.
  `Account` is one sample and `CloseMinute` closes a minute bucket. It also
  holds the saved record, its boot-time defaults (`Restore`), and the lemmas
  about all of these.
- `peripheral.dfy` (`Peripheral`): class `BLEFunction`. It holds the set of
  connected centrals and the LED level. Every radio call it makes (write,
  notify, indicate, advertise) goes into a ghost log, in order.
- `firmware.dfy` (`Firmware`): class `Monitor`, which holds main.py's
  module-level loop state. `Step` is one pass of the `while True` loop. It is
  proved equal to `Account` on the accounting state. It also states what is
  published and saved, and how long the pass sleeps. `Startup` is the boot
  sequence.

Time is a natural-number millisecond clock given by the caller. Readings are
`real`. The radio stack, the sensors and the flash file become parameters or
entries in the log.

Points where the model follows the code as written:
- The last wire field is `int(wh_last_d)`, which truncates toward zero; it is
  not rounded to the nearest watt-hour.
- Every disconnect re-advertises, even when other centrals stay connected.
- `set_data` checks nothing about the length of the data it writes.
- Values loaded at boot are not checked. A saved capacity outside
  `[0, MAX_CAPACITY_AS]` stays as it is until the first sample that
  integrates, and `minutes_passed` may be any integer. `CapacityClamped` and
  `MinutesInRange` say what holds from then on.
- The hour bucket is the mean of whatever the minute history holds. Early on
  it may hold fewer than 60 values.
- A field whose truncated value lies outside `[-32 768, 32 767]` is published
  as its low 16 bits, and the pass goes on to save and sleep as usual. Examples
  are a voltage of 327.68 V or more, a current of 327.68 A or more or of
  -327.69 A or less, a last-hour average of 3276.8 W or more, and a day's
  energy of 32 768 Wh or more.

## Model

| member | source | states |
|---|---|---|
| `Wire.Trunc` | main.py:137-138 | `int()` of a float truncates toward zero: the result has the sign of the input and lies within less than 1 of it, on the zero side |
| `Wire.Wrap16` | main.py:137-138 | the int16 that an integer's low 16 bits encode: it lies in `[-32768, 32767]`, differs from the integer by a multiple of 65536, and is the integer itself when that already fits |
| `Wire.PackInt16` | main.py:137-138 | `struct.pack("<h", v)` gives 2 bytes, low byte first, that read back as `v` wrapped to 16 bits, and as `v` itself whenever `v` is in `[-32768, 32767]` |
| `Wire.PackUnpack` | main.py:137-138 | every pair of bytes is the packing of the int16 it reads as (the other direction of the round trip) |
| `Wire.PackFields` | main.py:137-138 | the concatenated packing of several fields has 2 bytes per field, and bytes `2i`,`2i+1` read back as field `i` wrapped to 16 bits |
| `Wire.Fields` | main.py:137-138 | there are five fields in wire order; a non-negative voltage gives a non-negative field no larger than volt×100, and the current field has the sign of the current and lies on the zero side of curr×100 |
| `Wire.CharacteristicValue` | main.py:137-138 | the characteristic value is always 10 bytes, and each little-endian pair reads back as its truncated field (volt×100, curr×100, capacity×100/3600, last-hour W×10, last-day Wh) wrapped to 16 bits, exactly the field when it fits in an int16 |
| `Wire.CapacityFieldRange` | main.py:137-138 | a capacity within `[0, max]` gives a third field within `[0, max/36]`, so `[0, 10500]` for 105 Ah |
| `Wire.WorkedExample` | main.py:137-138 | 12.34 V, -3.21 A, 37800 As, 45.6 W, 120 Wh encode as the fields 1234, -321, 1050, 456, 120, given as exact bytes |
| `Wire.OverrangeVoltageWraps` | main.py:137-138 | a 400 V reading, whose field 40000 does not fit in an int16, is published as the int16 -25536 |
| `History.Keep` | main.py:38-45 | `deque(xs, n)` holds `min(len(xs), n)` items |
| `History.KeepIsSuffix` | main.py:38-45 | the items `deque(xs, n)` holds are the last ones of `xs`, in their order |
| `History.Push` | main.py:118-123 | an append to a deque bounded by `n` leaves between 1 and `n` items, the new value last |
| `History.PushBounded` | main.py:118-123 | an append grows a deque below its bound by exactly one item and leaves a full deque at the bound |
| `History.PushEvictsOldest` | main.py:118-123 | below the bound an append only appends; on a full deque it drops the oldest item and appends |
| `History.Sum` | main.py:123-135 | `sum()` of non-negative values is non-negative |
| `History.Mean` | main.py:123-131 | `sum(xs)/len(xs)` of a non-empty list, characterised as the value that times the length gives the sum |
| `History.SumBounds` | main.py:123 | a sum of `n` values in `[lo, hi]` lies in `[n·lo, n·hi]` |
| `History.MeanBounds` | main.py:123 | the hour bucket (the mean of the minute history) lies between the smallest and largest minute averages |
| `History.LastHourAverage` | main.py:128-131 | `wh_last_h` is 0.0 for an empty minute history; otherwise it times the length gives the sum (no division by zero) |
| `History.LastDayEnergy` | main.py:132-135 | `wh_last_d` equals the sum of the hour history; the 0.0 fallback agrees with the empty sum |
| `Accounting.Clamp` | main.py:113-114 | `max(0, min(MAX, x))` lies in `[0, MAX]`, equals `x` inside the range, and equals the nearer bound outside it |
| `Accounting.Integrate` | main.py:112-115 | coulomb counting leaves the capacity in `[0, MAX_CAPACITY_AS]` and touches neither history, the minute count, the window start nor the reading time |
| `Accounting.CloseMinute` | main.py:117-124 | closing a minute puts its average last in the minute history, restarts the accumulator at 0 and its window at now, and leaves the capacity and the reading time alone |
| `Accounting.Account` | main.py:111-126 | every sample sets `last_reading` to its own time, and a sample that integrates leaves the capacity in `[0, MAX_CAPACITY_AS]` |
| `Accounting.CapacityClamped` | main.py:111-114 | after any sample that integrates, the capacity lies in `[0, MAX_CAPACITY_AS]`, whatever the current, the voltage or the elapsed time (even a negative one) |
| `Accounting.CapacityIntegrates` | main.py:112-114 | unless the clamp applies, the capacity moves by exactly `elapsed·curr/1000` ampere-seconds |
| `Accounting.FirstSampleOnlyTimestamps` | main.py:111-126 | with no previous reading, a sample changes nothing but `last_reading`: capacity, accumulator, both histories and the minute count stay as they were |
| `Accounting.CloseMinuteBounded` | main.py:117-124 | closing a minute keeps the minute history within 60 entries and the hour history within 24 |
| `Accounting.AccountBounded` | main.py:115-124 | the minute history stays within 60 entries and the hour history within 24 |
| `Accounting.MinuteBucket` | main.py:115-124 | a minute closes exactly when the window reaches 60 000 ms. It appends `watt_ms/duration`, resets `watt_ms` to 0 and its start to now, and adds 1 to the minute count; at 60 the count instead resets to 0 and the mean of the new minute history is appended to the hour history. Otherwise neither history nor the count changes and `watt_ms` accumulates |
| `Accounting.MinutesInRange` | main.py:121-124 | a minute count that starts in `[0, 60)` stays in `[0, 60)` |
| `Accounting.Closings` | main.py:117 | a run of samples closes at most one minute per sample |
| `Accounting.ClosingsAppendMinutes` | main.py:111-126 | over any run of samples from bounded deques, the minute history grows by exactly the number of minute closings until it is full at 60, and both deques stay within 60 and 24 |
| `Accounting.HourAfterSixtyMinutes` | main.py:111-126 | over any run of samples starting from a count `m` in `[0, 60)`: while fewer than `60-m` minutes have closed, the hour history is untouched and the count is `m` plus the closings; the sample that closes the `(60-m)`-th minute appends exactly one hour bucket (the mean of the minute history then) and leaves the count at 0 |
| `Accounting.Saved` | main.py:142-147 | a save writes all four keys: capacity, both history lists, minute count |
| `Accounting.Restore` | main.py:27-50 | an unreadable file counts as an empty status. Missing keys default to capacity `MAX_CAPACITY_AS`, empty histories and 0 minutes, and loaded lists are cut to at most 60 and 24 items |
| `Accounting.RestoreKeepsNewest` | main.py:37-45 | each loaded history, on its own, keeps only its newest 60 (or 24) items when it is longer, and is kept whole when it is not |
| `Accounting.SaveRestoreRoundTrip` | main.py:33-50 | booting from what a save wrote gives back the same capacity, histories and minute count |
| `Peripheral.Sends` | ble_function.py:64-71 | one pass over `n` centrals makes `n` sends per flag that is set |
| `Peripheral.SendsCount` | ble_function.py:64-71 | one pass over the connected centrals sends exactly one notify to each when `notify` is set and none otherwise, and the same for indicate; a handle that is not connected gets nothing |
| `Peripheral.SendsOnlyToMembers` | ble_function.py:64-71 | everything the loop sends is a notify or an indicate, on the characteristic handle, to a connected central |
| `Peripheral.SendsNothing` | ble_function.py:64 | with neither flag set, nothing is sent |
| `Peripheral.BLEFunction.constructor` | ble_function.py:32-42 | a new peripheral has no connections and the LED off. Its payload is built from the name, the service UUID and appearance 128, and its only radio call so far is one advertise of that payload at 500 000 µs |
| `Peripheral.BLEFunction.Advertise` | ble_function.py:73-74 | advertising appends one advertise of the stored payload at the given interval and changes nothing else |
| `Peripheral.BLEFunction.Irq` | ble_function.py:44-59 | connect: adds the handle, LED on, no radio call. Disconnect of a connected handle: removes only it, re-advertises the stored payload at 500 000 µs, LED off. Disconnect of an unknown handle: `KeyError`, nothing changed. Indicate-done and other events: nothing changed |
| `Peripheral.BLEFunction.SetData` | ble_function.py:61-71 | the radio log gains a write of `data` to the characteristic first, then the sends of one pass over the unchanged connection set in some order. Connections and LED are untouched |
| `Firmware.SaveDue` | main.py:142 | the five-minute save is due only strictly after the last save |
| `Firmware.SleepMs` | main.py:151 | the pause is at least 1 ms and fills the 500 ms period (`pause + elapsed ≥ 500`). It is exactly the remainder unless that would be under 1 ms, and at most 500 ms for a non-negative elapsed time |
| `Firmware.Monitor.Boot` | main.py:27-50 | the loop state starts as `Restore` of the loaded status, with the bounds holding, no reading yet, and the accumulator and save timer started at boot time |
| `Firmware.Monitor.Integrate` | main.py:112-115 | in-place coulomb counting leaves the state equal to the engine's `Integrate` of the old state over `now - last_reading` |
| `Firmware.Monitor.CloseMinute` | main.py:116-124 | in-place closing of a minute leaves the state equal to the engine's `CloseMinute` with the average `watt_ms/duration`, and keeps the deque bounds |
| `Firmware.Monitor.Sample` | main.py:111-126 | the in-place accounting of one pass leaves the state equal to `Account` of the old state and keeps the deque bounds |
| `Firmware.Monitor.Step` | main.py:100-151 | one pass leaves the accounting state equal to `Account` of the old one. The 10-byte characteristic value of the new state is written and then notified (never indicated) to every connected central, fields that overflow an int16 included; the record is saved, and `last_save` becomes now, exactly when 5 minutes have passed; the pause is `SleepMs` of the pass's elapsed time |
| `Firmware.Startup` | main.py:27-95 | boot restores the status, creates the "mBLEBattery" peripheral for service 0x180A with no connections, the LED off and one advertise, and starts the timers at boot time with no reading yet |

## Left out

- Sensor drivers and the readiness gate (INA3221/INA226 set-up and reads, `is_ready`): hardware I/O through libraries that are not part of this model. The current and voltage are inputs to `Step`.
- Dummy-mode random readings: they are nondeterministic, so the model takes plain inputs instead.
- The watchdog (`WDT`, `feed`), `machine.reset_cause()` and every `print`: hardware and diagnostic side effects.
- File I/O and JSON: the file is represented by the `Status` datatype that was read and the `Record` that is written. Keys other than the four the firmware uses are not modelled, and neither are values of the wrong JSON type.
- Clock wrap-around of `ticks_ms`/`ticks_diff`: the clock is a natural number. One pass reads the clock once at `start` (`loop_start`); every later read in the same pass returns the same `now`.
- IEEE-754 floats: readings and averages are `real`, so a field such as `int(12.34*100)` may differ by one from the device.
- What MicroPython does with the `KeyError` raised inside the IRQ handler: the model only says that nothing changed.
- `touch_values` and the suspend/deep-sleep variant: the first is declared but never used, and the second is not in the modelled source.
- Bluetooth stack internals (`BLE()`, `active`, `irq` registration, `gatts_register_services`, the bytes `advertising_payload` builds): the characteristic handle is a constructor parameter, and the payload is the datatype of its inputs.
- LED pin set-up and the ESP32-C3 fallback that swaps the LED polarity and pin: only the level is kept, with on = 1 and off = 0.
- Concurrency of the IRQ callback: events are method calls that run between passes of the loop.
- The order in which `set_data` visits the connected centrals: Python's set order is not modelled. `SetData` admits any order that visits each central once.
