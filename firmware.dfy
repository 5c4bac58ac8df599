/**
 * The firmware's main loop (main.py): boot-time restoration of the saved
 * status, creation of the battery service, and one pass of the sampling loop
 * as `Monitor.Step`.
 */
module Firmware {
  import opened Options
  import opened Wire
  import opened History
  import opened Accounting
  import opened Peripheral

  const DEVICE_NAME: string := "mBLEBattery"
  const BATTERY_SERVICE_UUID: int := 0x180A
  const SAVE_INTERVAL_MS: int := 5 * 60 * 1000
  const LOOP_PERIOD_MS: int := 500

  /**
   * What one pass of the loop emits beside its state change: the published
   * characteristic value, the record written to flash if a save was due, and
   * the pause before the next pass.
   */
  datatype Outcome = Outcome(value: seq<byte>, saved: Option<Record>, sleepMs: int)

  /**
   * Whether the five-minute save is due at `now`; never at the time of the
   * last save itself, so a save is followed by at least five minutes without one.
   */
  predicate SaveDue(lastSave: nat, now: nat): (due: bool)
    ensures due ==> lastSave < now
  {
    now - lastSave >= SAVE_INTERVAL_MS
  }

  /**
   * `max(1, 500 - elapsed)`: the pause that fills the rest of the 500 ms
   * period, and at least 1 ms when the pass overran it.
   */
  function SleepMs(elapsed: int): (r: int)
    ensures 1 <= r
    ensures r + elapsed >= LOOP_PERIOD_MS
    ensures r == 1 || r + elapsed == LOOP_PERIOD_MS
    ensures elapsed >= 0 ==> r <= LOOP_PERIOD_MS
  {
    if LOOP_PERIOD_MS - elapsed > 1 then LOOP_PERIOD_MS - elapsed else 1
  }

  /** The module-level state main.py's loop reads and updates. */
  class Monitor {
    var capacityAS: real
    var wmHistory: seq<real>
    var whHistory: seq<real>
    var minutesPassed: int
    var wattMs: real
    var wattMsStart: nat
    var lastReading: nat
    var lastSave: nat

    /** The two deques never exceed their bounds. */
    ghost predicate Valid()
      reads this
    {
      Bounded(State())
    }

    /** The state the accounting engine works on. */
    ghost function State(): Telemetry
      reads this
    {
      Telemetry(capacityAS, wmHistory, whHistory, minutesPassed, wattMs, wattMsStart, lastReading)
    }

    /** The part of the state a save writes to flash. */
    function Snapshot(): Record
      reads this
    {
      Record(capacityAS, wmHistory, whHistory, minutesPassed)
    }

    /**
     * Boot: restore the saved status (or its defaults) and start both the
     * save timer and the accumulator window at `now`; no reading yet.
     */
    constructor Boot(loaded: Option<Status>, now: nat)
      ensures Valid()
      ensures Snapshot() == Restore(loaded)
      ensures wattMs == 0.0 && wattMsStart == now && lastReading == 0 && lastSave == now
    {
      var record := Restore(loaded);
      capacityAS := record.capacityAS;
      wmHistory := record.wmHistory;
      whHistory := record.whHistory;
      minutesPassed := record.minutesPassed;
      wattMs := 0.0;
      wattMsStart := now;
      lastReading := 0;
      lastSave := now;
    }

    /** Coulomb counting since the last reading (lines 112-115 of main.py). */
    method Integrate(now: nat, curr: real, volt: real)
      requires lastReading > 0
      modifies this`capacityAS, this`wattMs
      ensures State() == Accounting.Integrate(old(State()), now - lastReading, curr, volt)
    {
      var timeSpent := now - lastReading;
      capacityAS := Clamp(capacityAS + timeSpent as real * curr / 1000.0);
      wattMs := wattMs + timeSpent as real * curr * volt;
    }

    /**
     * Closing the minute once the accumulator window reaches 60 s (lines
     * 116-124 of main.py): append the minute average, restart the window,
     * count the minute and, at 60, append the hour average.
     */
    method CloseMinute(now: nat)
      requires Valid()
      requires now - wattMsStart >= MINUTE_MS
      modifies this`wmHistory, this`whHistory, this`wattMs, this`wattMsStart, this`minutesPassed
      ensures Valid()
      ensures State() == Accounting.CloseMinute(old(State()), old(wattMs) / (now - old(wattMsStart)) as real, now)
    {
      var duration := now - wattMsStart;
      CloseMinuteBounded(State(), wattMs / duration as real, now);
      wmHistory := Push(wmHistory, wattMs / duration as real, MINUTE_SLOTS);
      wattMs := 0.0;
      wattMsStart := now;
      minutesPassed := minutesPassed + 1;
      if minutesPassed >= MINUTES_PER_HOUR {
        whHistory := Push(whHistory, Mean(wmHistory), HOUR_SLOTS);
        minutesPassed := 0;
      }
    }

    /**
     * The accounting part of a pass (lines 111-126 of main.py), done in
     * place: integrate since the last reading, close the minute when its
     * window is complete, and record the reading time.
     */
    method Sample(now: nat, curr: real, volt: real)
      requires Valid()
      modifies this
      ensures Valid()
      ensures State() == Account(old(State()), now, curr, volt)
      ensures lastSave == old(lastSave)
    {
      if lastReading > 0 {
        Integrate(now, curr, volt);
        if now - wattMsStart >= MINUTE_MS {
          CloseMinute(now);
        }
      }
      lastReading := now;
    }

    /**
     * One pass of the loop on a reading of `curr` amperes and `volt` volts:
     * the pass starts at `start` and every later clock read returns `now`.
     * Accounting follows `Account`; the characteristic value is written and
     * notified to every connected central; the status is saved when five
     * minutes have passed since the last save; the pass then sleeps for the
     * rest of its 500 ms.
     */
    method Step(ble: BLEFunction, start: nat, now: nat, curr: real, volt: real) returns (outcome: Outcome)
      requires Valid()
      modifies this, ble`log
      ensures Valid()
      ensures State() == Account(old(State()), now, curr, volt)
      ensures outcome.value
              == CharacteristicValue(volt, curr, capacityAS, LastHourAverage(wmHistory), LastDayEnergy(whHistory))
      ensures ble.Published(old(ble.log), outcome.value, true, false)
      ensures outcome.saved == if SaveDue(old(lastSave), now) then Some(Snapshot()) else None
      ensures lastSave == if SaveDue(old(lastSave), now) then now else old(lastSave)
      ensures outcome.sleepMs == SleepMs(now - start)
    {
      Sample(now, curr, volt);

      var whLastH := LastHourAverage(wmHistory);
      var whLastD := LastDayEnergy(whHistory);
      var value := CharacteristicValue(volt, curr, capacityAS, whLastH, whLastD);
      ble.SetData(value, true, false);

      var saved: Option<Record> := None;
      if now - lastSave >= SAVE_INTERVAL_MS {
        saved := Some(Snapshot());
        lastSave := now;
      }
      outcome := Outcome(value, saved, SleepMs(now - start));
    }
  }

  /**
   * Boot of the whole device: restore the status, register the battery
   * service and start advertising as "mBLEBattery", then start the timers
   * at `now`. `charHandle` is the characteristic handle the radio stack
   * assigns.
   */
  method Startup(loaded: Option<Status>, now: nat, charHandle: int) returns (monitor: Monitor, ble: BLEFunction)
    ensures fresh(monitor) && fresh(ble)
    ensures monitor.Valid() && monitor.Snapshot() == Restore(loaded)
    ensures monitor.lastReading == 0 && monitor.lastSave == now && monitor.wattMsStart == now && monitor.wattMs == 0.0
    ensures ble.connections == {} && ble.led == LED_OFF && ble.charHandle == charHandle
    ensures ble.payload == AdvertisingPayload(DEVICE_NAME, [BATTERY_SERVICE_UUID], ADV_APPEARANCE_GENERIC_COMPUTER)
    ensures ble.log == [GapAdvertise(ADV_INTERVAL_US, ble.payload)]
  {
    monitor := new Monitor.Boot(loaded, now);
    ble := new BLEFunction(DEVICE_NAME, BATTERY_SERVICE_UUID, charHandle);
  }
}
