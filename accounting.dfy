/**
 * The per-sample energy accounting of main.py's loop: coulomb counting into a
 * clamped capacity, a watt-millisecond accumulator closed into per-minute
 * averages, per-hour averages of the minute history, and the persisted record
 * with its boot-time defaults.
 */
module Accounting {
  import opened Options
  import opened History

  const MAX_CAPACITY_AS: real := 105.0 * 3600.0
  const MINUTE_MS: int := 60 * 1000
  const MINUTES_PER_HOUR: int := 60

  /** Everything the loop carries from one sample to the next. */
  datatype Telemetry = Telemetry(
    capacityAS: real,
    wmHistory: seq<real>,
    whHistory: seq<real>,
    minutesPassed: int,
    wattMs: real,
    wattMsStart: nat,
    lastReading: nat)

  /** Both histories within their deque bounds. */
  predicate Bounded(t: Telemetry) {
    |t.wmHistory| <= MINUTE_SLOTS && |t.whHistory| <= HOUR_SLOTS
  }

  /** `max(0, min(MAX_CAPACITY_AS, x))`. */
  function Clamp(x: real): (r: real)
    ensures 0.0 <= r <= MAX_CAPACITY_AS
    ensures 0.0 <= x <= MAX_CAPACITY_AS ==> r == x
    ensures x < 0.0 ==> r == 0.0
    ensures x > MAX_CAPACITY_AS ==> r == MAX_CAPACITY_AS
  {
    if x < 0.0 then 0.0 else if x > MAX_CAPACITY_AS then MAX_CAPACITY_AS else x
  }

  /**
   * Closing a minute whose average power is `avg`: append it to the minute
   * history, restart the accumulator at `now`, count the minute, and when
   * the count reaches 60 append the minute history's mean to the hour
   * history and restart the count.
   */
  function CloseMinute(t: Telemetry, avg: real, now: nat): (r: Telemetry)
    ensures r.wmHistory != [] && r.wmHistory[|r.wmHistory| - 1] == avg
    ensures r.wattMs == 0.0 && r.wattMsStart == now
    ensures r.capacityAS == t.capacityAS && r.lastReading == t.lastReading
  {
    var wm := Push(t.wmHistory, avg, MINUTE_SLOTS);
    var minutes := t.minutesPassed + 1;
    if minutes >= MINUTES_PER_HOUR then
      t.(wmHistory := wm, whHistory := Push(t.whHistory, Mean(wm), HOUR_SLOTS),
         minutesPassed := 0, wattMs := 0.0, wattMsStart := now)
    else
      t.(wmHistory := wm, minutesPassed := minutes, wattMs := 0.0, wattMsStart := now)
  }

  /**
   * Coulomb counting over `elapsed` ms at `curr` A and `volt` V: the capacity
   * moves by `elapsed * curr / 1000` ampere-seconds and is clamped, and the
   * accumulator gains `elapsed * curr * volt` watt-milliseconds.
   */
  function Integrate(t: Telemetry, elapsed: int, curr: real, volt: real): (r: Telemetry)
    ensures 0.0 <= r.capacityAS <= MAX_CAPACITY_AS
    ensures r.wmHistory == t.wmHistory && r.whHistory == t.whHistory && r.minutesPassed == t.minutesPassed
    ensures r.wattMsStart == t.wattMsStart && r.lastReading == t.lastReading
  {
    t.(capacityAS := Clamp(t.capacityAS + elapsed as real * curr / 1000.0),
       wattMs := t.wattMs + elapsed as real * curr * volt)
  }

  /**
   * One sample of current `curr` (A) and voltage `volt` (V) taken at `now`
   * (ms). The very first sample (no previous reading) only records `now`.
   * Every sample records `now` as its reading time, and one that integrates
   * leaves the capacity within `[0, MAX_CAPACITY_AS]`.
   */
  function Account(t: Telemetry, now: nat, curr: real, volt: real): (r: Telemetry)
    ensures r.lastReading == now
    ensures t.lastReading > 0 ==> 0.0 <= r.capacityAS <= MAX_CAPACITY_AS
  {
    if t.lastReading > 0 then
      var integrated := Integrate(t, now - t.lastReading, curr, volt);
      var duration := now - t.wattMsStart;
      var closed := if duration >= MINUTE_MS then CloseMinute(integrated, integrated.wattMs / duration as real, now)
                     else integrated;
      closed.(lastReading := now)
    else
      t.(lastReading := now)
  }

  /** After any sample that integrates, the capacity lies in `[0, MAX_CAPACITY_AS]`,
      whatever the sign and size of the current and of the elapsed time. */
  lemma CapacityClamped(t: Telemetry, now: nat, curr: real, volt: real)
    requires t.lastReading > 0 || 0.0 <= t.capacityAS <= MAX_CAPACITY_AS
    ensures 0.0 <= Account(t, now, curr, volt).capacityAS <= MAX_CAPACITY_AS
  {
  }

  /** The capacity moves by `elapsed * curr / 1000` ampere-seconds unless the clamp bites. */
  lemma CapacityIntegrates(t: Telemetry, now: nat, curr: real, volt: real)
    requires t.lastReading > 0
    requires 0.0 <= t.capacityAS + (now - t.lastReading) as real * curr / 1000.0 <= MAX_CAPACITY_AS
    ensures Account(t, now, curr, volt).capacityAS == t.capacityAS + (now - t.lastReading) as real * curr / 1000.0
  {
  }

  /** The first sample changes nothing but the reading timestamp. */
  lemma FirstSampleOnlyTimestamps(t: Telemetry, now: nat, curr: real, volt: real)
    requires t.lastReading == 0
    ensures Account(t, now, curr, volt) == t.(lastReading := now)
  {
  }

  /** Closing a minute keeps both deques within their bounds. */
  lemma CloseMinuteBounded(t: Telemetry, avg: real, now: nat)
    requires Bounded(t)
    ensures Bounded(CloseMinute(t, avg, now))
  {
    var wm := Push(t.wmHistory, avg, MINUTE_SLOTS);
    PushBounded(t.wmHistory, avg, MINUTE_SLOTS);
    PushBounded(t.whHistory, Mean(wm), HOUR_SLOTS);
  }

  /** The deque bounds survive every sample. */
  lemma AccountBounded(t: Telemetry, now: nat, curr: real, volt: real)
    requires Bounded(t)
    ensures Bounded(Account(t, now, curr, volt))
  {
    if t.lastReading > 0 {
      var integrated := Integrate(t, now - t.lastReading, curr, volt);
      var duration := now - t.wattMsStart;
      if duration >= MINUTE_MS {
        CloseMinuteBounded(integrated, integrated.wattMs / duration as real, now);
      }
    }
  }

  /**
   * A minute closes exactly when the accumulator window reaches 60 s: its
   * average `watt_ms / duration` is appended, the accumulator restarts at
   * `now` and the minute count grows by one (or wraps to 0 with an hour
   * bucket). Before that, neither history nor the count changes.
   */
  lemma MinuteBucket(t: Telemetry, now: nat, curr: real, volt: real)
    requires t.lastReading > 0
    ensures var r := Account(t, now, curr, volt);
            var duration := now - t.wattMsStart;
            var wattMs := Integrate(t, now - t.lastReading, curr, volt).wattMs;
            if duration >= MINUTE_MS then
              && r.wmHistory == Push(t.wmHistory, wattMs / duration as real, MINUTE_SLOTS)
              && r.wattMs == 0.0 && r.wattMsStart == now
              && (t.minutesPassed + 1 < MINUTES_PER_HOUR ==>
                    r.minutesPassed == t.minutesPassed + 1 && r.whHistory == t.whHistory)
              && (t.minutesPassed + 1 >= MINUTES_PER_HOUR ==>
                    r.minutesPassed == 0 && r.whHistory == Push(t.whHistory, Mean(r.wmHistory), HOUR_SLOTS))
            else
              && r.wmHistory == t.wmHistory && r.whHistory == t.whHistory
              && r.minutesPassed == t.minutesPassed
              && r.wattMs == wattMs && r.wattMsStart == t.wattMsStart
  {
  }

  /** A minute count that starts within `[0, 60)` stays there. */
  lemma MinutesInRange(t: Telemetry, now: nat, curr: real, volt: real)
    requires 0 <= t.minutesPassed < MINUTES_PER_HOUR
    ensures 0 <= Account(t, now, curr, volt).minutesPassed < MINUTES_PER_HOUR
  {
  }

  /** One sensor reading: the clock, the current (A) and the voltage (V). */
  datatype Reading = Reading(now: nat, curr: real, volt: real)

  /** The state after the samples of `run`, in order. */
  function Run(t: Telemetry, run: seq<Reading>): Telemetry
  {
    if run == [] then t
    else
      var last := run[|run| - 1];
      Account(Run(t, run[..|run| - 1]), last.now, last.curr, last.volt)
  }

  /** Whether a sample taken at `now` closes a minute. */
  predicate ClosesMinute(t: Telemetry, now: nat) {
    t.lastReading > 0 && now - t.wattMsStart >= MINUTE_MS
  }

  /** How many samples of `run` close a minute. */
  function Closings(t: Telemetry, run: seq<Reading>): (n: nat)
    ensures n <= |run|
  {
    if run == [] then 0
    else
      var front := run[..|run| - 1];
      Closings(t, front) + if ClosesMinute(Run(t, front), run[|run| - 1].now) then 1 else 0
  }

  /**
   * Each closing appends one minute average and nothing else does: over a
   * run, the minute history grows by the number of closings until it is
   * full at 60, and both deques stay within their bounds.
   */
  lemma {:induction false} ClosingsAppendMinutes(t: Telemetry, run: seq<Reading>)
    requires Bounded(t)
    ensures Bounded(Run(t, run))
    ensures |Run(t, run).wmHistory| ==
              if |t.wmHistory| + Closings(t, run) < MINUTE_SLOTS then |t.wmHistory| + Closings(t, run) else MINUTE_SLOTS
  {
    if run != [] {
      var front := run[..|run| - 1];
      var last := run[|run| - 1];
      ClosingsAppendMinutes(t, front);
      var p := Run(t, front);
      AccountBounded(p, last.now, last.curr, last.volt);
      if p.lastReading > 0 {
        MinuteBucket(p, last.now, last.curr, last.volt);
        if ClosesMinute(p, last.now) {
          var duration := last.now - p.wattMsStart;
          var wattMs := Integrate(p, last.now - p.lastReading, last.curr, last.volt).wattMs;
          PushBounded(p.wmHistory, wattMs / duration as real, MINUTE_SLOTS);
        }
      } else {
        FirstSampleOnlyTimestamps(p, last.now, last.curr, last.volt);
      }
    }
  }

  /**
   * From a minute count `m` in `[0, 60)`, a run of samples that closes fewer
   * than `60 - m` minutes leaves the hour history alone and adds its closings
   * to the count. A run that closes exactly `60 - m` minutes appends exactly
   * one hour bucket, the mean of the minute history as it ends, and leaves
   * the count at 0.
   */
  lemma {:induction false} HourAfterSixtyMinutes(t: Telemetry, run: seq<Reading>)
    requires 0 <= t.minutesPassed < MINUTES_PER_HOUR
    requires t.minutesPassed + Closings(t, run) <= MINUTES_PER_HOUR
    ensures var r := Run(t, run);
            if t.minutesPassed + Closings(t, run) < MINUTES_PER_HOUR then
              r.minutesPassed == t.minutesPassed + Closings(t, run) && r.whHistory == t.whHistory
            else
              && r.minutesPassed == 0 && r.wmHistory != []
              && r.whHistory == Push(t.whHistory, Mean(r.wmHistory), HOUR_SLOTS)
  {
    if run != [] {
      var front := run[..|run| - 1];
      var last := run[|run| - 1];
      HourAfterSixtyMinutes(t, front);
      var p := Run(t, front);
      if p.lastReading > 0 {
        MinuteBucket(p, last.now, last.curr, last.volt);
      } else {
        FirstSampleOnlyTimestamps(p, last.now, last.curr, last.volt);
      }
    }
  }

  /** The record written to `/status.json`. */
  datatype Record = Record(capacityAS: real, wmHistory: seq<real>, whHistory: seq<real>, minutesPassed: int)

  /** The dictionary read back from `/status.json`; a field is `None` when its key is missing. */
  datatype Status = Status(
    capacityAS: Option<real>,
    wmHistoryList: Option<seq<real>>,
    whHistoryList: Option<seq<real>>,
    minutesPassed: Option<int>)

  /** The dictionary a save writes: every key present. */
  function Saved(r: Record): (s: Status)
    ensures s.capacityAS.Some? && s.wmHistoryList.Some? && s.whHistoryList.Some? && s.minutesPassed.Some?
  {
    Status(Some(r.capacityAS), Some(r.wmHistory), Some(r.whHistory), Some(r.minutesPassed))
  }

  /**
   * Boot: `loaded` is `None` when the file cannot be read or parsed, which
   * is treated as an empty dictionary. Missing keys default to a full
   * battery, empty histories and no minutes; loaded lists keep their last
   * 60 and 24 items.
   */
  function Restore(loaded: Option<Status>): (r: Record)
    ensures |r.wmHistory| <= MINUTE_SLOTS && |r.whHistory| <= HOUR_SLOTS
    ensures loaded.None? ==> r == Record(MAX_CAPACITY_AS, [], [], 0)
    ensures loaded.Some? ==>
      && r.capacityAS == (if loaded.value.capacityAS.Some? then loaded.value.capacityAS.value else MAX_CAPACITY_AS)
      && r.minutesPassed == (if loaded.value.minutesPassed.Some? then loaded.value.minutesPassed.value else 0)
      && (loaded.value.wmHistoryList.None? ==> r.wmHistory == [])
      && (loaded.value.whHistoryList.None? ==> r.whHistory == [])
  {
    var status := if loaded.Some? then loaded.value else Status(None, None, None, None);
    Record(
      if status.capacityAS.Some? then status.capacityAS.value else MAX_CAPACITY_AS,
      if status.wmHistoryList.Some? then Keep(status.wmHistoryList.value, MINUTE_SLOTS) else [],
      if status.whHistoryList.Some? then Keep(status.whHistoryList.value, HOUR_SLOTS) else [],
      if status.minutesPassed.Some? then status.minutesPassed.value else 0)
  }

  /** A loaded list longer than its bound keeps only its newest items. */
  lemma RestoreKeepsNewest(s: Status)
    ensures var r := Restore(Some(s));
            && (s.wmHistoryList.Some? ==>
                  var wm := s.wmHistoryList.value;
                  && (|wm| <= MINUTE_SLOTS ==> r.wmHistory == wm)
                  && (|wm| > MINUTE_SLOTS ==> r.wmHistory == wm[|wm| - MINUTE_SLOTS..]))
            && (s.whHistoryList.Some? ==>
                  var wh := s.whHistoryList.value;
                  && (|wh| <= HOUR_SLOTS ==> r.whHistory == wh)
                  && (|wh| > HOUR_SLOTS ==> r.whHistory == wh[|wh| - HOUR_SLOTS..]))
  {
  }

  /** Saving a record whose histories are within bounds and booting from it restores it. */
  lemma SaveRestoreRoundTrip(r: Record)
    requires |r.wmHistory| <= MINUTE_SLOTS && |r.whHistory| <= HOUR_SLOTS
    ensures Restore(Some(Saved(r))) == r
  {
  }
}
