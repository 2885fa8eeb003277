/** The charging end-time sensor (custom_components/voyah/sensor.py): a small state
    machine over "was charging", the last battery percentage seen and the cached
    estimate, plus a sliding window of at most four (percent, server time) samples
    from which the completion time is extrapolated.  Percentages and times are exact
    reals; the current wall-clock time is a parameter. */
module Sensor {
  import opened Json
  import opened Api

  /** TARGET_BATTERY_PCT */
  const TargetPct: real := 100.0
  /** RATE_WINDOW_POINTS, the `maxlen` of the sample deque */
  const WindowPoints: nat := 4

  /** One (battery percent, server time in seconds) observation. */
  datatype Sample = Sample(pct: real, time: real)

  // ---------------------------------------------------------------------------
  // The bounded window

  /** The last `n` elements of `s` (all of them when there are fewer). */
  function LastN(s: seq<Sample>, n: nat): (r: seq<Sample>)
    ensures |r| == if |s| < n then |s| else n
    ensures r == s[|s| - |r|..]
  {
    if |s| <= n then s else s[|s| - n..]
  }

  /** `deque(maxlen=WindowPoints).append(s)`: a full window first drops its oldest sample. */
  function Push(window: seq<Sample>, s: Sample): (r: seq<Sample>)
    requires |window| <= WindowPoints
    ensures |r| <= WindowPoints && r != [] && r[|r| - 1] == s
    ensures r == LastN(window + [s], WindowPoints)
  {
    if |window| < WindowPoints then window + [s] else window[1..] + [s]
  }

  /** Appending several samples one after the other. */
  function PushAll(window: seq<Sample>, xs: seq<Sample>): (r: seq<Sample>)
    requires |window| <= WindowPoints
    decreases |xs|
  {
    if xs == [] then window else PushAll(Push(window, xs[0]), xs[1..])
  }

  /** Keeping the newest `n` of a sequence, then appending, then keeping the newest `n`,
      is the same as appending first. */
  lemma LastNAppend(s: seq<Sample>, xs: seq<Sample>, n: nat)
    ensures LastN(LastN(s, n) + xs, n) == LastN(s + xs, n)
  {
    if |s| > n {
      var u := s[|s| - n..];
      var a := u + xs;
      var b := s + xs;
      var p := s[..|s| - n];
      assert b == p + a;
      if |a| > n {
        assert b[|p| + (|a| - n)..] == a[|a| - n..];
      }
    }
  }

  /** However many samples are appended, the window holds exactly the newest
      `WindowPoints` of everything ever appended, oldest first. */
  lemma {:induction false} WindowKeepsNewest(window: seq<Sample>, xs: seq<Sample>)
    requires |window| <= WindowPoints
    ensures PushAll(window, xs) == LastN(window + xs, WindowPoints)
    decreases |xs|
  {
    if xs == [] {
      assert window + xs == window;
    } else {
      var pushed := Push(window, xs[0]);
      calc {
        PushAll(window, xs);
        PushAll(pushed, xs[1..]);
        { WindowKeepsNewest(pushed, xs[1..]); }
        LastN(LastN(window + [xs[0]], WindowPoints) + xs[1..], WindowPoints);
        { LastNAppend(window + [xs[0]], xs[1..], WindowPoints); }
        LastN(window + [xs[0]] + xs[1..], WindowPoints);
        { assert window + [xs[0]] + xs[1..] == window + xs; }
        LastN(window + xs, WindowPoints);
      }
    }
  }

  // ---------------------------------------------------------------------------
  // The estimate

  /** The window admits an estimate: two samples or more, the newest below the target,
      and both the percentage and the time strictly rising from oldest to newest. */
  predicate Estimable(w: seq<Sample>) {
    |w| >= 2 && w[|w| - 1].pct < TargetPct &&
    w[|w| - 1].pct - w[0].pct > 0.0 && w[|w| - 1].time - w[0].time > 0.0
  }

  lemma RemainingSeconds(remaining: real, deltaPct: real, deltaTime: real)
    requires remaining > 0.0 && deltaPct > 0.0 && deltaTime > 0.0
    ensures remaining / (deltaPct / deltaTime) > 0.0
    ensures remaining / (deltaPct / deltaTime) * deltaPct == remaining * deltaTime
  {
    var rate := deltaPct / deltaTime;
    assert rate * deltaTime == deltaPct;
    var secs := remaining / rate;
    assert secs * rate == remaining;
    assert secs * deltaPct == secs * (rate * deltaTime) == (secs * rate) * deltaTime;
  }

  /** `_compute_end_time`: the moment the line through the oldest and newest samples
      reaches the target, counted from `now`; `None` when the window admits no estimate. */
  function EndTime(w: seq<Sample>, now: real): (r: Option<real>)
    ensures r.Some? <==> Estimable(w)
    ensures r.Some? ==> r.value > now
    // at the window's rate, the time left covers exactly the percentage left
    ensures r.Some? ==>
      (r.value - now) * (w[|w| - 1].pct - w[0].pct) == (TargetPct - w[|w| - 1].pct) * (w[|w| - 1].time - w[0].time)
  {
    if |w| < 2 then None
    else
      var oldest := w[0];
      var newest := w[|w| - 1];
      if newest.pct >= TargetPct then None
      else
        var deltaPct := newest.pct - oldest.pct;
        var deltaTime := newest.time - oldest.time;
        if deltaPct <= 0.0 || deltaTime <= 0.0 then None
        else
          var rate := deltaPct / deltaTime;
          var remainingPct := TargetPct - newest.pct;
          RemainingSeconds(remainingPct, deltaPct, deltaTime);
          Some(now + remainingPct / rate)
  }

  /** 60% at 0 s and 64% at 1200 s: 4% per 20 minutes, so the remaining 36% take three hours. */
  lemma EndTimeExample(now: real)
    ensures EndTime([Sample(60.0, 0.0), Sample(64.0, 1200.0)], now) == Some(now + 10800.0)
  {
  }

  /** A window whose newest sample is at or above the target gives no estimate. */
  lemma EndTimeWhenFull(now: real)
    ensures EndTime([Sample(98.0, 0.0), Sample(100.0, 600.0)], now) == None
  {
  }

  /** A percentage that fell while charging gives no estimate, and nothing fails. */
  lemma EndTimeWhenFalling(now: real)
    ensures EndTime([Sample(80.0, 1000.0), Sample(78.0, 1100.0)], now) == None
  {
  }

  /** Only the oldest and newest samples matter; a later `now` moves the estimate by as much. */
  lemma EndTimeDependsOnEnds(w: seq<Sample>, v: seq<Sample>, now: real, later: real)
    requires |w| >= 2 && |v| >= 2 && w[0] == v[0] && w[|w| - 1] == v[|v| - 1]
    ensures EndTime(w, now) == EndTime(v, now)
    ensures EndTime(w, now).Some? ==> EndTime(w, later) == Some(EndTime(w, now).value + (later - now))
  {
  }

  // ---------------------------------------------------------------------------
  // The state machine, as a function of the old state and one snapshot

  /** What one coordinator snapshot tells the sensor. */
  datatype Reading = Reading(charging: bool, pct: Option<real>, time: Option<real>)

  function NumberOf(j: Json): Option<real> {
    if j.Num? then Some(j.n) else None
  }

  /** `bool(sensors.get("chargingStatus"))`, `sensors.get("batteryPercentage")` and `data.get("time")`. */
  function ReadingOf(data: Snapshot): Reading {
    Reading(Truthy(GetOr(data.sensors, "chargingStatus", Null)),
            NumberOf(GetOr(data.sensors, "batteryPercentage", Null)),
            NumberOf(data.time))
  }

  /** The sensor's tracking fields: the window, the last percentage seen, the cached
      estimate and whether it was charging. */
  datatype Tracking = Tracking(window: seq<Sample>, lastSeen: Option<real>, cached: Option<real>, charging: bool)

  const Idle := Tracking([], None, None, false)

  /** The invariant the sensor keeps: a bounded window; nothing tracked while not
      charging; an estimate only for a window that admits one; a sample only once a
      percentage has been seen. */
  predicate Inv(t: Tracking) {
    |t.window| <= WindowPoints &&
    (!t.charging ==> t.window == [] && t.lastSeen == None && t.cached == None) &&
    (t.cached.Some? ==> t.charging && Estimable(t.window)) &&
    (t.window != [] ==> t.lastSeen.Some?)
  }

  /** The window after a reading that is recorded as a sample when it has both a percentage and a time. */
  function Record(window: seq<Sample>, r: Reading): (w: seq<Sample>)
    requires |window| <= WindowPoints
    ensures |w| <= WindowPoints
    // a complete reading becomes the newest sample, the oldest falling out of a full window
    ensures r.pct.Some? && r.time.Some? ==> w == LastN(window + [Sample(r.pct.value, r.time.value)], WindowPoints)
    ensures r.pct.None? || r.time.None? ==> w == window
  {
    if r.pct.Some? && r.time.Some? then Push(window, Sample(r.pct.value, r.time.value)) else window
  }

  /** `_handle_coordinator_update`. */
  function Update(t: Tracking, r: Reading, now: real): (u: Tracking)
    requires |t.window| <= WindowPoints
    ensures |u.window| <= WindowPoints
  {
    if !r.charging then
      (if t.charging then Idle else t)
    else if !t.charging then
      Tracking(Record(t.window, r), r.pct, None, true)
    else if r.pct.Some? && r.pct != t.lastSeen then
      if r.time.Some? then
        var w := Record(t.window, r);
        Tracking(w, r.pct, EndTime(w, now), true)
      else
        Tracking(t.window, r.pct, t.cached, true)
    else
      t
  }

  /** The constructor with `_init_tracking`: a sensor created while charging is already
      seeded with the first snapshot, but has no estimate yet. */
  function Init(r: Reading): (t: Tracking)
    ensures Inv(t)
    ensures t.charging == r.charging && t.cached == None
  {
    if r.charging then Tracking(Record([], r), r.pct, None, true) else Idle
  }

  /** `native_value`: nothing unless charging, else the cached estimate. */
  function Shown(t: Tracking): (v: Option<real>)
    ensures !t.charging ==> v == None
    ensures t.charging ==> v == t.cached
  {
    if !t.charging then None else t.cached
  }

  lemma UpdateKeepsInv(t: Tracking, r: Reading, now: real)
    requires Inv(t)
    ensures Inv(Update(t, r, now))
  {
  }

  /** Creating the sensor is the same as feeding its first snapshot to an idle sensor. */
  lemma InitIsFirstUpdate(r: Reading, now: real)
    ensures Init(r) == Update(Idle, r, now)
  {
  }

  /** A shown estimate always comes from a window that admits one, and lies ahead of the
      moment it was computed, so a non-estimable window never shows a time. */
  lemma ShownNeedsEstimableWindow(t: Tracking)
    requires Inv(t)
    ensures Shown(t).Some? ==> t.charging && |t.window| >= 2 && Estimable(t.window)
  {
  }

  /** Charging starts: the flag is set, the percentage is remembered, the cache is
      cleared, and the window holds just this reading when it has a percentage and a time. */
  lemma StartOfCharging(t: Tracking, r: Reading, now: real)
    requires Inv(t) && !t.charging && r.charging
    ensures var u := Update(t, r, now);
      u.charging && u.lastSeen == r.pct && u.cached == None &&
      u.window == (if r.pct.Some? && r.time.Some? then [Sample(r.pct.value, r.time.value)] else [])
  {
  }

  /** Charging stops: everything is cleared. */
  lemma EndOfCharging(t: Tracking, r: Reading, now: real)
    requires Inv(t) && !r.charging
    ensures Update(t, r, now) == Idle
  {
  }

  /** Stopping and restarting a charge starts the window afresh, whatever came before. */
  lemma RestartForgetsHistory(t: Tracking, off: Reading, on: Reading, now1: real, now2: real)
    requires Inv(t) && !off.charging && on.charging
    ensures Update(Update(t, off, now1), on, now2) == Init(on)
  {
  }

  /** While charging, a reading without a percentage or with the same percentage changes nothing. */
  lemma SamePercentIsNoOp(t: Tracking, r: Reading, now: real)
    requires |t.window| <= WindowPoints && t.charging && r.charging
    requires r.pct.None? || r.pct == t.lastSeen
    ensures Update(t, r, now) == t
  {
  }

  /** While charging, a changed percentage is always remembered; without a server time
      the window and the cache are untouched, with one a sample is appended and the
      estimate recomputed from the new window. */
  lemma ChangedPercent(t: Tracking, r: Reading, now: real)
    requires |t.window| <= WindowPoints && t.charging && r.charging
    requires r.pct.Some? && r.pct != t.lastSeen
    ensures var u := Update(t, r, now);
      u.charging && u.lastSeen == r.pct &&
      (r.time.None? ==> u.window == t.window && u.cached == t.cached) &&
      (r.time.Some? ==> u.window == Push(t.window, Sample(r.pct.value, r.time.value)) && u.cached == EndTime(u.window, now))
  {
  }

  /** 60% seen at 0 s, then 64% at 1200 s: the sensor shows a completion three hours on. */
  lemma ChargingScenario(now0: real, now1: real)
    ensures var t := Update(Update(Idle, Reading(true, Some(60.0), Some(0.0)), now0),
                            Reading(true, Some(64.0), Some(1200.0)), now1);
      Shown(t) == Some(now1 + 10800.0)
  {
    var t0 := Update(Idle, Reading(true, Some(60.0), Some(0.0)), now0);
    assert t0 == Tracking([Sample(60.0, 0.0)], Some(60.0), None, true);
    var w := Push(t0.window, Sample(64.0, 1200.0));
    assert w == [Sample(60.0, 0.0), Sample(64.0, 1200.0)];
    ChangedPercent(t0, Reading(true, Some(64.0), Some(1200.0)), now1);
    EndTimeExample(now1);
  }

  // ---------------------------------------------------------------------------
  // Runs of updates

  datatype Tick = Tick(reading: Reading, now: real)

  /** The sensor's state after a sequence of coordinator updates. */
  function Run(t: Tracking, ticks: seq<Tick>): (u: Tracking)
    requires |t.window| <= WindowPoints
    decreases |ticks|
  {
    if ticks == [] then t else Run(Update(t, ticks[0].reading, ticks[0].now), ticks[1..])
  }

  /** The invariant holds after any sequence of updates. */
  lemma {:induction false} RunKeepsInv(t: Tracking, ticks: seq<Tick>)
    requires Inv(t)
    ensures Inv(Run(t, ticks))
    decreases |ticks|
  {
    if ticks != [] {
      UpdateKeepsInv(t, ticks[0].reading, ticks[0].now);
      RunKeepsInv(Update(t, ticks[0].reading, ticks[0].now), ticks[1..]);
    }
  }

  /** Feeding the same unchanged charging reading again and again never changes the state,
      so the shown estimate stays the cached one. */
  lemma {:induction false} RepeatedReadingIsNoOp(t: Tracking, ticks: seq<Tick>)
    requires |t.window| <= WindowPoints && t.charging
    requires forall i :: 0 <= i < |ticks| ==>
      ticks[i].reading.charging && (ticks[i].reading.pct.None? || ticks[i].reading.pct == t.lastSeen)
    ensures Run(t, ticks) == t
    decreases |ticks|
  {
    if ticks != [] {
      SamePercentIsNoOp(t, ticks[0].reading, ticks[0].now);
      RepeatedReadingIsNoOp(t, ticks[1..]);
    }
  }

  // ---------------------------------------------------------------------------
  // Entity set-up

  datatype Entity = Measurement(key: string) | ChargingEndTime

  /** One measurement entity per description whose key the first snapshot reports, in description order. */
  function Measurements(keys: seq<string>, sensors: map<string, Json>): (r: seq<Entity>)
    ensures |r| <= |keys|
    ensures forall i :: 0 <= i < |r| ==> r[i].Measurement? && r[i].key in sensors && r[i].key in keys
    ensures forall k :: k in keys && k in sensors ==> Measurement(k) in r
  {
    if keys == [] then []
    else
      var rest := Measurements(keys[1..], sensors);
      if keys[0] in sensors then [Measurement(keys[0])] + rest else rest
  }

  /** Each reported key is measured exactly as many times as it is described, and a key
      the snapshot does not report is never measured. */
  lemma {:induction false} MeasurementsCount(keys: seq<string>, sensors: map<string, Json>, k: string)
    ensures multiset(Measurements(keys, sensors))[Measurement(k)] == (if k in sensors then multiset(keys)[k] else 0)
    decreases |keys|
  {
    if keys != [] {
      MeasurementsCount(keys[1..], sensors, k);
      assert keys == [keys[0]] + keys[1..];
    }
  }

  /** The entities keep the descriptions' order: measuring two runs of descriptions one
      after the other gives the first run's entities, then the second's. */
  lemma {:induction false} MeasurementsAppend(a: seq<string>, b: seq<string>, sensors: map<string, Json>)
    ensures Measurements(a + b, sensors) == Measurements(a, sensors) + Measurements(b, sensors)
    decreases |a|
  {
    if a == [] {
      assert a + b == b;
    } else {
      assert (a + b)[1..] == a[1..] + b;
      MeasurementsAppend(a[1..], b, sensors);
    }
  }

  /** `async_setup_entry`: the measurement entities, and the end-time entity exactly when
      both the battery percentage and the charging status are reported. */
  function SetupEntities(keys: seq<string>, sensors: map<string, Json>): (r: seq<Entity>)
    ensures ChargingEndTime in r <==> "batteryPercentage" in sensors && "chargingStatus" in sensors
    ensures forall k :: k in keys && k in sensors ==> Measurement(k) in r
    ensures forall e :: e in r && e.Measurement? ==> e.key in keys && e.key in sensors
  {
    var measured := Measurements(keys, sensors);
    assert ChargingEndTime !in measured;
    if "batteryPercentage" in sensors && "chargingStatus" in sensors then measured + [ChargingEndTime] else measured
  }

  // ---------------------------------------------------------------------------
  // The entity

  /** `VoyahChargingEndTimeSensor`: the tracking fields, updated in place. */
  class ChargingEndTimeSensor {
    var window: seq<Sample>         // _pct_history
    var lastSeenPct: Option<real>   // _last_seen_pct
    var cachedEndTime: Option<real> // _cached_end_time
    var wasCharging: bool           // _was_charging

    function State(): Tracking
      reads this
    {
      Tracking(window, lastSeenPct, cachedEndTime, wasCharging)
    }

    ghost predicate Valid()
      reads this
    {
      Inv(State())
    }

    constructor (data: Snapshot)
      ensures Valid() && State() == Init(ReadingOf(data))
    {
      window := [];
      lastSeenPct := None;
      cachedEndTime := None;
      wasCharging := false;
      new;
      InitTracking(data);
    }

    /** `_init_tracking`: seed the state from the first snapshot when already charging. */
    method InitTracking(data: Snapshot)
      requires State() == Idle
      modifies this
      ensures State() == Init(ReadingOf(data))
    {
      if Truthy(GetOr(data.sensors, "chargingStatus", Null)) {
        var pct := NumberOf(GetOr(data.sensors, "batteryPercentage", Null));
        var apiTime := NumberOf(data.time);
        wasCharging := true;
        lastSeenPct := pct;
        if pct.Some? && apiTime.Some? {
          window := Push(window, Sample(pct.value, apiTime.value));
        }
      }
    }

    /** `_reset_tracking`. */
    method ResetTracking()
      modifies this
      ensures State() == Idle
    {
      window := [];
      lastSeenPct := None;
      cachedEndTime := None;
      wasCharging := false;
    }

    /** `_handle_coordinator_update`, with the current time as `now`. */
    method HandleCoordinatorUpdate(data: Snapshot, now: real)
      requires Valid()
      modifies this
      ensures Valid()
      ensures State() == Update(old(State()), ReadingOf(data), now)
    {
      ghost var before := State();
      var isCharging := Truthy(GetOr(data.sensors, "chargingStatus", Null));
      if !isCharging {
        if wasCharging {
          ResetTracking();
        }
      } else if !wasCharging {
        var pct := NumberOf(GetOr(data.sensors, "batteryPercentage", Null));
        var apiTime := NumberOf(data.time);
        wasCharging := true;
        lastSeenPct := pct;
        cachedEndTime := None;
        if pct.Some? && apiTime.Some? {
          window := Push(window, Sample(pct.value, apiTime.value));
        }
      } else {
        var currentPct := NumberOf(GetOr(data.sensors, "batteryPercentage", Null));
        if currentPct.Some? && currentPct != lastSeenPct {
          var currentTime := NumberOf(data.time);
          lastSeenPct := currentPct;
          if currentTime.Some? {
            window := Push(window, Sample(currentPct.value, currentTime.value));
            cachedEndTime := EndTime(window, now);
          }
        }
      }
      UpdateKeepsInv(before, ReadingOf(data), now);
    }

    /** `native_value`: no time unless charging; while charging, the cached estimate,
        which only a window that admits an estimate can have produced. */
    function NativeValue(): (v: Option<real>)
      reads this
      requires Valid()
      ensures v == Shown(State())
      ensures v.Some? ==> wasCharging && Estimable(window)
    {
      if !wasCharging then None else cachedEndTime
    }
  }
}
