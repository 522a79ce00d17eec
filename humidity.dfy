/**
 * The humidity regulator: a bang-bang controller over one humidifier relay,
 * without safety latch. One iteration of the control loop is a Tick.
 */
module Humidity {
  import opened Common
  import opened Relay

  /** The three thresholds update_settings may change. */
  datatype Settings = Settings(target: real, min: real, max: real)

  /** The constructor's default thresholds, in percent relative humidity. */
  const DefaultSettings: Settings := Settings(60.0, 55.0, 65.0)

  /** The constructor's default humidifier relay. */
  const DefaultHumidifierRelay: int := 2

  /** The runtime fields one loop iteration updates. */
  datatype RunState = RunState(
    humidifier: bool,
    currentHumidity: Option<real>,
    currentTemp: Option<real>,
    lastReadingTime: Option<real>)

  /** What one Tick leaves behind: the new runtime fields and the relay calls it issued, in order. */
  datatype TickOutcome = TickOutcome(next: RunState, writes: seq<Command>)

  /**
   * The four-band policy, bands tested in the Python code's order: below min (on),
   * above max (off), below target (on), otherwise off.
   */
  function DesiredHumidifier(h: real, min: real, max: real, target: real): (on: bool)
    ensures on <==> h < min || (h <= max && h < target)
  {
    if h < min then true
    else if h > max then false
    else if h < target then true
    else false
  }

  /** One loop iteration on relay r. */
  function Step(cfg: Settings, r: int, s: RunState, reading: Reading, now: real): (o: TickOutcome)
    // The reading and its time are recorded, whatever they are.
    ensures o.next.currentHumidity == HumidityOf(reading) && o.next.currentTemp == TempOf(reading)
    ensures o.next.lastReadingTime == Some(now)
    // A failed read changes nothing else.
    ensures reading.None? ==> o.next.humidifier == s.humidifier && o.writes == []
    // A valid reading sets the humidifier to the policy's state, calling the relay only on change.
    ensures reading.Some? ==>
      && o.next.humidifier == DesiredHumidifier(reading.value.humidity, cfg.min, cfg.max, cfg.target)
      && o.writes == (if s.humidifier == o.next.humidifier then [] else [Switch(r, o.next.humidifier)])
  {
    var recorded := s.(currentHumidity := HumidityOf(reading), currentTemp := TempOf(reading),
                       lastReadingTime := Some(now));
    if reading.None? then
      TickOutcome(recorded, [])
    else
      var on := DesiredHumidifier(reading.value.humidity, cfg.min, cfg.max, cfg.target);
      TickOutcome(recorded.(humidifier := on), if s.humidifier == on then [] else [Switch(r, on)])
  }

  /**
   * A run of consecutive loop iterations: the final runtime fields and every
   * relay call issued, the last iteration taken after all the others.
   */
  function Run(cfg: Settings, r: int, s: RunState, polls: seq<Poll>): (o: TickOutcome)
    decreases |polls|
  {
    if polls == [] then TickOutcome(s, [])
    else
      var prefix := Run(cfg, r, s, polls[..|polls| - 1]);
      var last := Step(cfg, r, prefix.next, polls[|polls| - 1].reading, polls[|polls| - 1].at);
      TickOutcome(last.next, prefix.writes + last.writes)
  }

  /** The humidifier's state as the run leaves it: decided by the last valid reading, if there is one. */
  function LastDecision(cfg: Settings, initial: bool, polls: seq<Poll>): (on: bool)
    ensures (forall i :: 0 <= i < |polls| ==> polls[i].reading.None?) ==> on == initial
    decreases |polls|
  {
    if polls == [] then initial
    else
      var last := polls[|polls| - 1];
      if last.reading.Some? then DesiredHumidifier(last.reading.value.humidity, cfg.min, cfg.max, cfg.target)
      else LastDecision(cfg, initial, polls[..|polls| - 1])
  }

  /**
   * Every relay call of a run addresses the humidifier relay, at most one per
   * iteration; and since every iteration records its time, a run ends with the
   * last poll's time.
   */
  lemma {:induction false} RunCalls(cfg: Settings, r: int, s: RunState, polls: seq<Poll>)
    ensures var o := Run(cfg, r, s, polls);
      && (forall c :: c in o.writes ==> c.relay == r)
      && |o.writes| <= |polls|
      && (polls != [] ==> o.next.lastReadingTime == Some(polls[|polls| - 1].at))
    decreases |polls|
  {
    if polls != [] {
      RunCalls(cfg, r, s, polls[..|polls| - 1]);
    }
  }

  /**
   * The humidifier carries no memory beyond the last valid reading: after any
   * run it is in the state the policy gives that reading, or unchanged if no
   * read succeeded.
   */
  lemma {:induction false} RunEndsAtLastDecision(cfg: Settings, r: int, s: RunState, polls: seq<Poll>)
    ensures Run(cfg, r, s, polls).next.humidifier == LastDecision(cfg, s.humidifier, polls)
    decreases |polls|
  {
    if polls != [] {
      RunEndsAtLastDecision(cfg, r, s, polls[..|polls| - 1]);
    }
  }

  /** Relay calls happen only on change: repeating a reading issues no relay call the second time. */
  lemma RepeatIssuesNoWrites(cfg: Settings, r: int, s: RunState, reading: Reading, t1: real, t2: real)
    ensures Step(cfg, r, Step(cfg, r, s, reading, t1).next, reading, t2).writes == []
  {
  }

  /** The humidity status snapshot. */
  datatype Status = Status(
    isRunning: bool,
    currentHumidity: Option<real>,
    currentTemp: Option<real>,
    targetHumidity: real,
    minHumidity: real,
    maxHumidity: real,
    humidifierStatus: bool,
    lastReadingTime: Option<real>)

  class HumidityController {
    var targetHumidity: real
    var minHumidity: real
    var maxHumidity: real
    const humidifierRelay: int
    const relay: RelayController
    const isInitialized: bool
    var isRunning: bool
    var currentHumidity: Option<real>
    var currentTemp: Option<real>
    var humidifierStatus: bool
    var lastReadingTime: Option<real>

    function Config(): (cfg: Settings)
      reads this
    {
      Settings(targetHumidity, minHumidity, maxHumidity)
    }

    function State(): (s: RunState)
      reads this
    {
      RunState(humidifierStatus, currentHumidity, currentTemp, lastReadingTime)
    }

    /** The humidifier relay number is a relay of the board. */
    predicate Wired()
    {
      0 <= humidifierRelay < relay.numRelays
    }

    /** The relay table agrees with the humidifier status while the board is initialised and wired. */
    ghost predicate Synced()
      reads this, relay
      requires relay.Valid()
    {
      relay.isInitialized && Wired() ==> relay.relayStates[humidifierRelay] == humidifierStatus
    }

    /** The controller invariant: humidifier off whenever the loop is not running, relay table in agreement. */
    ghost predicate Valid()
      reads this, relay
    {
      relay.Valid() && (!isRunning ==> !humidifierStatus) && Synced()
    }

    /**
     * A controller with its own relay board on the default pins; an omitted
     * (None) argument takes its default, and `sensorConnected` and `gpioReady`
     * stand for whether the sensor and the GPIO setup came up. The default
     * relay is wired.
     */
    constructor (target: Option<real>, min: Option<real>, max: Option<real>, r: Option<int>,
                 sensorConnected: bool, gpioReady: bool)
      ensures Valid() && fresh(relay)
      ensures Config() == Settings(Override(target, DefaultSettings.target), Override(min, DefaultSettings.min),
                                   Override(max, DefaultSettings.max))
      ensures humidifierRelay == Override(r, DefaultHumidifierRelay)
      ensures r.None? ==> Wired()
      ensures relay.relayPins == DefaultPins && relay.isInitialized == gpioReady
      ensures relay.relayStates == seq(|DefaultPins|, _ => false)
      ensures State() == RunState(false, None, None, None)
      ensures !isRunning && isInitialized == (sensorConnected && gpioReady)
    {
      targetHumidity := Override(target, DefaultSettings.target);
      minHumidity := Override(min, DefaultSettings.min);
      maxHumidity := Override(max, DefaultSettings.max);
      humidifierRelay := Override(r, DefaultHumidifierRelay);
      var rc := new RelayController(None, gpioReady);
      relay := rc;
      isRunning := false;
      currentHumidity, currentTemp := None, None;
      humidifierStatus := false;
      lastReadingTime := None;
      isInitialized := sensorConnected && rc.isInitialized;
    }

    method Start() returns (ok: bool)
      requires Valid()
      modifies this`isRunning
      ensures Valid()
      ensures ok == (isInitialized && !old(isRunning))
      ensures isRunning == (old(isRunning) || ok)
    {
      if !isInitialized {
        return false;
      }
      if isRunning {
        return false;
      }
      isRunning := true;
      ok := true;
    }

    /** Ends the loop and switches the humidifier off; a stopped controller always has it off. */
    method Stop() returns (ok: bool)
      requires Valid()
      modifies this`isRunning, this`humidifierStatus, relay`relayStates
      ensures Valid()
      ensures ok == old(isRunning)
      ensures !isRunning && !humidifierStatus
      ensures relay.relayStates == ApplyAll(old(relay.relayStates), relay.isInitialized,
        if ok then [Switch(humidifierRelay, false)] else [])
      ensures relay.isInitialized && Wired() ==> !relay.relayStates[humidifierRelay]
    {
      if !isRunning {
        return false;
      }
      isRunning := false;
      var w := Issue(relay, relay.relayStates, [], Switch(humidifierRelay, false));
      humidifierStatus := false;
      ok := true;
    }

    /** One iteration of the control loop, returning the relay calls it issued. */
    method Tick(reading: Reading, now: real) returns (writes: seq<Command>)
      requires Valid() && isRunning
      modifies this`humidifierStatus, this`currentHumidity, this`currentTemp, this`lastReadingTime, relay`relayStates
      ensures Valid()
      ensures var o := Step(Config(), humidifierRelay, old(State()), reading, now);
        State() == o.next && writes == o.writes
      ensures relay.relayStates == ApplyAll(old(relay.relayStates), relay.isInitialized, writes)
    {
      currentHumidity := HumidityOf(reading);
      currentTemp := TempOf(reading);
      lastReadingTime := Some(now);
      if reading.None? {
        return [];
      }
      var h := reading.value.humidity;
      if h < minHumidity {
        writes := Drive(true);
      } else if h > maxHumidity {
        writes := Drive(false);
      } else if h < targetHumidity {
        writes := Drive(true);
      } else {
        writes := Drive(false);
      }
    }

    /**
     * The control loop while it runs: one Tick per poll, in order. The runtime
     * fields end as the run says, and the relay table as after every call issued.
     */
    method Loop(polls: seq<Poll>) returns (writes: seq<Command>)
      requires Valid() && isRunning
      modifies this`humidifierStatus, this`currentHumidity, this`currentTemp, this`lastReadingTime, relay`relayStates
      ensures Valid()
      ensures var o := Run(Config(), humidifierRelay, old(State()), polls);
        State() == o.next && writes == o.writes
      ensures relay.relayStates == ApplyAll(old(relay.relayStates), relay.isInitialized, writes)
    {
      writes := [];
      var i := 0;
      while i < |polls|
        invariant 0 <= i <= |polls|
        invariant Valid() && isRunning
        invariant var o := Run(Config(), humidifierRelay, old(State()), polls[..i]);
          State() == o.next && writes == o.writes
        invariant relay.relayStates == ApplyAll(old(relay.relayStates), relay.isInitialized, writes)
      {
        var w := Tick(polls[i].reading, polls[i].at);
        assert polls[..i + 1][..i] == polls[..i];
        ApplyAllAppend(old(relay.relayStates), relay.isInitialized, writes, w);
        writes := writes + w;
        i := i + 1;
      }
      assert polls[..i] == polls;
    }

    /** Brings the humidifier to `on`, calling the relay only if its status differs. */
    method Drive(on: bool) returns (writes: seq<Command>)
      requires relay.Valid() && Synced()
      modifies this`humidifierStatus, relay`relayStates
      ensures relay.Valid() && Synced()
      ensures humidifierStatus == on
      ensures writes == if old(humidifierStatus) == on then [] else [Switch(humidifierRelay, on)]
      ensures relay.relayStates == ApplyAll(old(relay.relayStates), relay.isInitialized, writes)
    {
      writes := [];
      if humidifierStatus != on {
        writes := Issue(relay, relay.relayStates, [], Switch(humidifierRelay, on));
        humidifierStatus := on;
      }
    }

    /** A snapshot of the controller; a stopped controller reports the humidifier off. */
    method GetStatus() returns (st: Status)
      requires Valid()
      ensures st == Status(isRunning, currentHumidity, currentTemp, targetHumidity, minHumidity, maxHumidity,
                           humidifierStatus, lastReadingTime)
      ensures !st.isRunning ==> !st.humidifierStatus
    {
      st := Status(isRunning, currentHumidity, currentTemp, targetHumidity, minHumidity, maxHumidity,
                   humidifierStatus, lastReadingTime);
    }

    /** Overwrites the given thresholds, keeps the others, and checks no ordering between them. */
    method UpdateSettings(target: Option<real>, min: Option<real>, max: Option<real>) returns (ok: bool)
      requires Valid()
      modifies this`targetHumidity, this`minHumidity, this`maxHumidity
      ensures Valid()
      ensures ok
      ensures Config() == Settings(Override(target, old(targetHumidity)), Override(min, old(minHumidity)),
                                   Override(max, old(maxHumidity)))
    {
      if target.Some? {
        targetHumidity := target.value;
      }
      if min.Some? {
        minHumidity := min.value;
      }
      if max.Some? {
        maxHumidity := max.value;
      }
      ok := true;
    }

    /** Stops the loop if it runs and releases the relay board. */
    method Cleanup() returns (ok: bool)
      requires Valid()
      modifies this`isRunning, this`humidifierStatus, relay`relayStates, relay`isInitialized
      ensures Valid()
      ensures ok
      ensures !isRunning && !humidifierStatus && !relay.isInitialized
      ensures old(relay.isInitialized) ==> relay.relayStates == seq(relay.numRelays, _ => false)
      ensures !old(relay.isInitialized) ==> relay.relayStates == old(relay.relayStates)
    {
      if isRunning {
        var stopped := Stop();
      }
      if relay.isInitialized {
        var released := relay.Cleanup();
      }
      ok := true;
    }
  }

  /** The default thresholds (target 60, range 55 to 65) fed 50, 58, 66, 60: on, on, off, off. */
  method Scenario() returns (trace: seq<bool>)
    ensures trace == [true, true, false, false]
  {
    var c := new HumidityController(None, None, None, None, true, true);
    var started := c.Start();
    var w0 := c.Tick(Some(Sample(99.0, 50.0)), 0.0);
    var s0 := c.humidifierStatus;
    var w1 := c.Tick(Some(Sample(99.0, 58.0)), 10.0);
    var s1 := c.humidifierStatus;
    var w2 := c.Tick(Some(Sample(99.0, 66.0)), 20.0);
    var s2 := c.humidifierStatus;
    var w3 := c.Tick(Some(Sample(99.0, 60.0)), 30.0);
    var s3 := c.humidifierStatus;
    trace := [s0, s1, s2, s3];
  }
}
