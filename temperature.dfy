/**
 * The thermal regulator: a bang-bang controller over two heater relays with a
 * latched safety cutoff and a hysteresis recovery. One iteration of the control
 * loop is a Tick; while the safety latch is set, a Tick is one pass of the
 * recovery sub-loop.
 */
module Temperature {
  import opened Common
  import opened Relay

  /** Width, in degrees Fahrenheit, of the band below min_temp and of the recovery band below safety_cutoff. */
  const Hysteresis: real := 0.3

  /** The four thresholds update_settings may change. */
  datatype Settings = Settings(target: real, min: real, max: real, safetyCutoff: real)

  /** The constructor's default thresholds, in degrees Fahrenheit. */
  const DefaultSettings: Settings := Settings(99.8, 99.6, 100.2, 100.3)

  /** The constructor's default heater relays. */
  const DefaultHeater1Relay: int := 0
  const DefaultHeater2Relay: int := 1

  /** The runtime fields one loop iteration updates. */
  datatype RunState = RunState(
    heater1: bool,
    heater2: bool,
    safetyTriggered: bool,
    currentTemp: Option<real>,
    currentHumidity: Option<real>,
    lastReadingTime: Option<real>)

  /** What one Tick leaves behind: the new runtime fields and the relay calls it issued, in order. */
  datatype TickOutcome = TickOutcome(next: RunState, writes: seq<Command>)

  /** The on/off state the band policy asks of the two heaters. */
  datatype Heaters = Heaters(heater1: bool, heater2: bool)

  /**
   * The five-band policy, bands tested in the Python code's order: far below min
   * (both on), just below min (heater 1), above max (off), below target
   * (heater 1), otherwise off. Heater 2 runs only in the lowest band, and
   * heater 2 never runs without heater 1.
   */
  function DesiredHeaters(t: real, min: real, max: real, target: real): (d: Heaters)
    ensures d.heater2 <==> t < min - Hysteresis
    ensures d.heater1 <==> t < min || (t <= max && t < target)
    ensures d.heater2 ==> d.heater1
  {
    if t < min then
      if t < min - Hysteresis then Heaters(true, true) else Heaters(true, false)
    else if t > max then Heaters(false, false)
    else if t < target then Heaters(true, false)
    else Heaters(false, false)
  }

  /**
   * The relay calls of the band policy: one for each heater whose status
   * differs from the desired one (heater 1 first), none otherwise.
   */
  function BandWrites(h1: bool, h2: bool, d: Heaters, r1: int, r2: int): (w: seq<Command>)
    ensures w == [] <==> h1 == d.heater1 && h2 == d.heater2
    ensures forall c :: c in w ==>
      (c == Switch(r1, d.heater1) && h1 != d.heater1) || (c == Switch(r2, d.heater2) && h2 != d.heater2)
  {
    (if h1 != d.heater1 then [Switch(r1, d.heater1)] else [])
    + (if h2 != d.heater2 then [Switch(r2, d.heater2)] else [])
  }

  /** The reading that ends the safety latch: a valid one strictly below the cutoff minus the hysteresis band. */
  predicate Recovers(cfg: Settings, reading: Reading)
    ensures Recovers(cfg, reading) ==> reading.Some? && reading.value.tempF < cfg.safetyCutoff
  {
    reading.Some? && reading.value.tempF < cfg.safetyCutoff - Hysteresis
  }

  /** The heater invariant: heater 2 only with heater 1, and no heater while the latch is set. */
  predicate Safe(s: RunState)
  {
    (s.heater2 ==> s.heater1) && (s.safetyTriggered ==> !s.heater1 && !s.heater2)
  }

  /** One loop iteration on relays r1 (heater 1) and r2 (heater 2). */
  function Step(cfg: Settings, r1: int, r2: int, s: RunState, reading: Reading, now: real): (o: TickOutcome)
    // A recovery pass tests the hysteresis condition and nothing else.
    ensures s.safetyTriggered ==>
      && o.writes == []
      && o.next.heater1 == s.heater1 && o.next.heater2 == s.heater2
      && o.next.currentTemp == s.currentTemp && o.next.currentHumidity == s.currentHumidity
      && o.next.lastReadingTime == s.lastReadingTime
      && (o.next.safetyTriggered <==> !(reading.Some? && reading.value.tempF < cfg.safetyCutoff - Hysteresis))
    // Otherwise the reading and its time are recorded, whatever they are.
    ensures !s.safetyTriggered ==>
      o.next.currentTemp == TempOf(reading) && o.next.currentHumidity == HumidityOf(reading)
      && o.next.lastReadingTime == Some(now)
    // A failed read changes no heater and no latch.
    ensures !s.safetyTriggered && reading.None? ==>
      o.writes == [] && o.next.heater1 == s.heater1 && o.next.heater2 == s.heater2 && !o.next.safetyTriggered
    // At or above the cutoff both heaters are switched off and the latch is set.
    ensures !s.safetyTriggered && reading.Some? && reading.value.tempF >= cfg.safetyCutoff ==>
      && o.next.safetyTriggered && !o.next.heater1 && !o.next.heater2
      && o.writes == [Switch(r1, false), Switch(r2, false)]
    // Below the cutoff the heaters take the band policy's state, writing only those that change.
    ensures !s.safetyTriggered && reading.Some? && reading.value.tempF < cfg.safetyCutoff ==>
      && !o.next.safetyTriggered
      && Heaters(o.next.heater1, o.next.heater2) == DesiredHeaters(reading.value.tempF, cfg.min, cfg.max, cfg.target)
      && o.writes == BandWrites(s.heater1, s.heater2, Heaters(o.next.heater1, o.next.heater2), r1, r2)
    // No heater is switched on by a tick that ends with the latch set.
    ensures o.next.safetyTriggered ==> forall c :: c in o.writes ==> !c.on
    ensures Safe(s) ==> Safe(o.next)
  {
    if s.safetyTriggered then
      TickOutcome(s.(safetyTriggered := !Recovers(cfg, reading)), [])
    else
      var recorded := s.(currentTemp := TempOf(reading), currentHumidity := HumidityOf(reading),
                         lastReadingTime := Some(now));
      if reading.None? then
        TickOutcome(recorded, [])
      else if reading.value.tempF >= cfg.safetyCutoff then
        TickOutcome(recorded.(heater1 := false, heater2 := false, safetyTriggered := true),
                    [Switch(r1, false), Switch(r2, false)])
      else
        var d := DesiredHeaters(reading.value.tempF, cfg.min, cfg.max, cfg.target);
        TickOutcome(recorded.(heater1 := d.heater1, heater2 := d.heater2),
                    BandWrites(s.heater1, s.heater2, d, r1, r2))
  }

  /**
   * A run of consecutive loop iterations: the final runtime fields and every
   * relay call issued, the last iteration taken after all the others.
   */
  function Run(cfg: Settings, r1: int, r2: int, s: RunState, polls: seq<Poll>): (o: TickOutcome)
    decreases |polls|
  {
    if polls == [] then TickOutcome(s, [])
    else
      var prefix := Run(cfg, r1, r2, s, polls[..|polls| - 1]);
      var last := Step(cfg, r1, r2, prefix.next, polls[|polls| - 1].reading, polls[|polls| - 1].at);
      TickOutcome(last.next, prefix.writes + last.writes)
  }

  /** Every relay call of a run addresses one of the two heater relays, at most two per iteration. */
  lemma {:induction false} RunCalls(cfg: Settings, r1: int, r2: int, s: RunState, polls: seq<Poll>)
    ensures var o := Run(cfg, r1, r2, s, polls);
      && (forall c :: c in o.writes ==> c.relay == r1 || c.relay == r2)
      && |o.writes| <= 2 * |polls|
    decreases |polls|
  {
    if polls != [] {
      RunCalls(cfg, r1, r2, s, polls[..|polls| - 1]);
    }
  }

  /** The heater invariant holds after any run that starts from a state satisfying it. */
  lemma {:induction false} RunKeepsSafe(cfg: Settings, r1: int, r2: int, s: RunState, polls: seq<Poll>)
    requires Safe(s)
    ensures Safe(Run(cfg, r1, r2, s, polls).next)
    decreases |polls|
  {
    if polls != [] {
      RunKeepsSafe(cfg, r1, r2, s, polls[..|polls| - 1]);
    }
  }

  /**
   * Once latched, the latch stays set through every reading that does not
   * recover (failed reads included); meanwhile both heaters stay off and no
   * relay call is issued.
   */
  lemma {:induction false} LatchHolds(cfg: Settings, r1: int, r2: int, s: RunState, polls: seq<Poll>)
    requires Safe(s) && s.safetyTriggered
    requires forall i :: 0 <= i < |polls| ==> !Recovers(cfg, polls[i].reading)
    ensures var o := Run(cfg, r1, r2, s, polls);
      o.next.safetyTriggered && !o.next.heater1 && !o.next.heater2 && o.writes == []
    decreases |polls|
  {
    if polls != [] {
      var prefix := polls[..|polls| - 1];
      assert !Recovers(cfg, polls[|polls| - 1].reading);
      assert forall i :: 0 <= i < |prefix| ==> !Recovers(cfg, prefix[i].reading) by {
        forall i | 0 <= i < |prefix| ensures !Recovers(cfg, prefix[i].reading) {
          assert prefix[i] == polls[i];
        }
      }
      LatchHolds(cfg, r1, r2, s, prefix);
    }
  }

  /** The first recovering reading after a latch clears it, without switching anything. */
  lemma RecoveryClears(cfg: Settings, r1: int, r2: int, s: RunState, reading: Reading, now: real)
    requires Safe(s) && s.safetyTriggered && Recovers(cfg, reading)
    ensures var o := Step(cfg, r1, r2, s, reading, now);
      !o.next.safetyTriggered && !o.next.heater1 && !o.next.heater2 && o.writes == []
  {
  }

  /**
   * Relay calls happen only on change: when the latch is clear, repeating a
   * reading (at any later time) issues no relay call the second time.
   */
  lemma RepeatIssuesNoWrites(cfg: Settings, r1: int, r2: int, s: RunState, reading: Reading, t1: real, t2: real)
    requires !s.safetyTriggered
    ensures Step(cfg, r1, r2, Step(cfg, r1, r2, s, reading, t1).next, reading, t2).writes == []
  {
  }

  /** The thermal status snapshot. */
  datatype Status = Status(
    isRunning: bool,
    currentTemp: Option<real>,
    currentHumidity: Option<real>,
    targetTemp: real,
    minTemp: real,
    maxTemp: real,
    safetyCutoff: real,
    heater1Status: bool,
    heater2Status: bool,
    safetyTriggered: bool,
    lastReadingTime: Option<real>)

  class TemperatureController {
    var targetTemp: real
    var minTemp: real
    var maxTemp: real
    var safetyCutoff: real
    const heater1Relay: int
    const heater2Relay: int
    const relay: RelayController
    const isInitialized: bool
    var isRunning: bool
    var currentTemp: Option<real>
    var currentHumidity: Option<real>
    var heater1Status: bool
    var heater2Status: bool
    var lastReadingTime: Option<real>
    var safetyTriggered: bool

    function Config(): (cfg: Settings)
      reads this
    {
      Settings(targetTemp, minTemp, maxTemp, safetyCutoff)
    }

    function State(): (s: RunState)
      reads this
    {
      RunState(heater1Status, heater2Status, safetyTriggered, currentTemp, currentHumidity, lastReadingTime)
    }

    /** The heater relay numbers are two distinct relays of the board. */
    predicate Wired()
    {
      0 <= heater1Relay < relay.numRelays && 0 <= heater2Relay < relay.numRelays && heater1Relay != heater2Relay
    }

    /**
     * The controller invariant: the heater invariant, heaters off whenever the
     * loop is not running, and, while the board is initialised and wired, the
     * relay table agrees with the heater statuses.
     */
    ghost predicate Valid()
      reads this, relay
    {
      && relay.Valid()
      && Safe(State())
      && (!isRunning ==> !heater1Status && !heater2Status)
      && Synced()
    }

    /**
     * A controller with its own relay board on the default pins; an omitted
     * (None) argument takes its default, and `sensorConnected` and `gpioReady`
     * stand for whether the sensor and the GPIO setup came up. The default
     * heater relays are wired.
     */
    constructor (target: Option<real>, min: Option<real>, max: Option<real>, cutoff: Option<real>,
                 r1: Option<int>, r2: Option<int>, sensorConnected: bool, gpioReady: bool)
      ensures Valid() && fresh(relay)
      ensures Config() == Settings(Override(target, DefaultSettings.target), Override(min, DefaultSettings.min),
                                   Override(max, DefaultSettings.max), Override(cutoff, DefaultSettings.safetyCutoff))
      ensures heater1Relay == Override(r1, DefaultHeater1Relay) && heater2Relay == Override(r2, DefaultHeater2Relay)
      ensures r1.None? && r2.None? ==> Wired()
      ensures relay.relayPins == DefaultPins && relay.isInitialized == gpioReady
      ensures relay.relayStates == seq(|DefaultPins|, _ => false)
      ensures State() == RunState(false, false, false, None, None, None)
      ensures !isRunning && isInitialized == (sensorConnected && gpioReady)
    {
      targetTemp := Override(target, DefaultSettings.target);
      minTemp := Override(min, DefaultSettings.min);
      maxTemp := Override(max, DefaultSettings.max);
      safetyCutoff := Override(cutoff, DefaultSettings.safetyCutoff);
      heater1Relay := Override(r1, DefaultHeater1Relay);
      heater2Relay := Override(r2, DefaultHeater2Relay);
      var rc := new RelayController(None, gpioReady);
      relay := rc;
      isRunning := false;
      currentTemp, currentHumidity := None, None;
      heater1Status, heater2Status := false, false;
      lastReadingTime := None;
      safetyTriggered := false;
      isInitialized := sensorConnected && rc.isInitialized;
    }

    method Start() returns (ok: bool)
      requires Valid()
      modifies this`isRunning, this`safetyTriggered
      ensures Valid()
      ensures ok == (isInitialized && !old(isRunning))
      ensures ok ==> isRunning && !safetyTriggered
      ensures !ok ==> isRunning == old(isRunning) && safetyTriggered == old(safetyTriggered)
    {
      if !isInitialized {
        return false;
      }
      if isRunning {
        return false;
      }
      isRunning := true;
      safetyTriggered := false;
      ok := true;
    }

    /** Ends the loop and switches both heaters off; a stopped controller always has its heaters off. */
    method Stop() returns (ok: bool)
      requires Valid()
      modifies this`isRunning, this`heater1Status, this`heater2Status, relay`relayStates
      ensures Valid()
      ensures ok == old(isRunning)
      ensures !isRunning && !heater1Status && !heater2Status
      ensures relay.relayStates == ApplyAll(old(relay.relayStates), relay.isInitialized,
        if ok then [Switch(heater1Relay, false), Switch(heater2Relay, false)] else [])
      ensures relay.isInitialized && Wired() ==> !relay.relayStates[heater1Relay] && !relay.relayStates[heater2Relay]
    {
      if !isRunning {
        return false;
      }
      isRunning := false;
      var w := Issue(relay, relay.relayStates, [], Switch(heater1Relay, false));
      w := Issue(relay, old(relay.relayStates), w, Switch(heater2Relay, false));
      heater1Status := false;
      heater2Status := false;
      ok := true;
    }

    /** One iteration of the control loop, returning the relay calls it issued. */
    method Tick(reading: Reading, now: real) returns (writes: seq<Command>)
      requires Valid() && isRunning
      modifies this`heater1Status, this`heater2Status, this`safetyTriggered, this`currentTemp,
               this`currentHumidity, this`lastReadingTime, relay`relayStates
      ensures Valid()
      ensures var o := Step(Config(), heater1Relay, heater2Relay, old(State()), reading, now);
        State() == o.next && writes == o.writes
      ensures relay.relayStates == ApplyAll(old(relay.relayStates), relay.isInitialized, writes)
    {
      if safetyTriggered {
        RecoveryPass(reading);
        return [];
      }
      Record(reading, now);
      if reading.None? {
        return [];
      }
      var t := reading.value.tempF;
      if t >= safetyCutoff {
        writes := CutOff();
      } else {
        writes := Regulate(t);
      }
    }

    /**
     * The control loop while it runs: one Tick per poll, in order. The runtime
     * fields end as the run says, and the relay table as after every call issued.
     */
    method Loop(polls: seq<Poll>) returns (writes: seq<Command>)
      requires Valid() && isRunning
      modifies this`heater1Status, this`heater2Status, this`safetyTriggered, this`currentTemp,
               this`currentHumidity, this`lastReadingTime, relay`relayStates
      ensures Valid()
      ensures var o := Run(Config(), heater1Relay, heater2Relay, old(State()), polls);
        State() == o.next && writes == o.writes
      ensures relay.relayStates == ApplyAll(old(relay.relayStates), relay.isInitialized, writes)
    {
      writes := [];
      var i := 0;
      while i < |polls|
        invariant 0 <= i <= |polls|
        invariant Valid() && isRunning
        invariant var o := Run(Config(), heater1Relay, heater2Relay, old(State()), polls[..i]);
          State() == o.next && writes == o.writes
        invariant relay.relayStates == ApplyAll(old(relay.relayStates), relay.isInitialized, writes)
      {
        var w := Tick(polls[i].reading, polls[i].at);
        assert polls[..i + 1][..i] == polls[..i];
        ApplyAllAppend(old(relay.relayStates), relay.isInitialized, writes, w);
        writes := writes + w;
        i := i + 1;
      }
      assert polls[..i] == polls;
    }

    /** One pass of the recovery sub-loop: the latch clears on a recovering reading, nothing else changes. */
    method RecoveryPass(reading: Reading)
      modifies this`safetyTriggered
      ensures safetyTriggered == (old(safetyTriggered) && !Recovers(Config(), reading))
    {
      if reading.Some? && reading.value.tempF < safetyCutoff - Hysteresis {
        safetyTriggered := false;
      }
    }

    /** Records the reading and the time it was taken, whether or not the read succeeded. */
    method Record(reading: Reading, now: real)
      modifies this`currentTemp, this`currentHumidity, this`lastReadingTime
      ensures currentTemp == TempOf(reading) && currentHumidity == HumidityOf(reading)
      ensures lastReadingTime == Some(now)
    {
      currentTemp := TempOf(reading);
      currentHumidity := HumidityOf(reading);
      lastReadingTime := Some(now);
    }

    /** The relay table agrees with the heater statuses while the board is initialised and wired. */
    ghost predicate Synced()
      reads this, relay
      requires relay.Valid()
    {
      relay.isInitialized && Wired() ==>
        relay.relayStates[heater1Relay] == heater1Status && relay.relayStates[heater2Relay] == heater2Status
    }

    /** The safety cutoff: both heater relays switched off, statuses cleared, latch set. */
    method CutOff() returns (writes: seq<Command>)
      requires relay.Valid()
      modifies this`heater1Status, this`heater2Status, this`safetyTriggered, relay`relayStates
      ensures relay.Valid() && Synced()
      ensures !heater1Status && !heater2Status && safetyTriggered
      ensures writes == [Switch(heater1Relay, false), Switch(heater2Relay, false)]
      ensures relay.relayStates == ApplyAll(old(relay.relayStates), relay.isInitialized, writes)
    {
      writes := Issue(relay, relay.relayStates, [], Switch(heater1Relay, false));
      writes := Issue(relay, old(relay.relayStates), writes, Switch(heater2Relay, false));
      heater1Status := false;
      heater2Status := false;
      safetyTriggered := true;
    }

    /** The five-band policy for a reading below the cutoff, branches in the Python code's order. */
    method Regulate(t: real) returns (writes: seq<Command>)
      requires relay.Valid() && Synced()
      modifies this`heater1Status, this`heater2Status, relay`relayStates
      ensures relay.Valid() && Synced()
      ensures Heaters(heater1Status, heater2Status) == DesiredHeaters(t, minTemp, maxTemp, targetTemp)
      ensures writes == BandWrites(old(heater1Status), old(heater2Status),
                                   DesiredHeaters(t, minTemp, maxTemp, targetTemp), heater1Relay, heater2Relay)
      ensures relay.relayStates == ApplyAll(old(relay.relayStates), relay.isInitialized, writes)
    {
      if t < minTemp {
        if t < minTemp - Hysteresis {
          writes := Drive(Heaters(true, true));
        } else {
          writes := Drive(Heaters(true, false));
        }
      } else if t > maxTemp {
        writes := Drive(Heaters(false, false));
      } else if t < targetTemp {
        writes := Drive(Heaters(true, false));
      } else {
        writes := Drive(Heaters(false, false));
      }
    }

    /**
     * Brings the heaters to `d`, calling the relay only for a heater whose
     * status differs (heater 1 first); the status is set whether or not the
     * relay call succeeded.
     */
    method Drive(d: Heaters) returns (writes: seq<Command>)
      requires relay.Valid() && Synced()
      modifies this`heater1Status, this`heater2Status, relay`relayStates
      ensures relay.Valid() && Synced()
      ensures heater1Status == d.heater1 && heater2Status == d.heater2
      ensures writes == BandWrites(old(heater1Status), old(heater2Status), d, heater1Relay, heater2Relay)
      ensures relay.relayStates == ApplyAll(old(relay.relayStates), relay.isInitialized, writes)
    {
      var first := SwitchHeater1(d.heater1);
      var second := SwitchHeater2(d.heater2);
      writes := first + second;
      ApplyAllAppend(old(relay.relayStates), relay.isInitialized, first, second);
    }

    method SwitchHeater1(on: bool) returns (writes: seq<Command>)
      requires relay.Valid() && Synced()
      modifies this`heater1Status, relay`relayStates
      ensures relay.Valid() && Synced()
      ensures heater1Status == on
      ensures writes == if old(heater1Status) == on then [] else [Switch(heater1Relay, on)]
      ensures relay.relayStates == ApplyAll(old(relay.relayStates), relay.isInitialized, writes)
    {
      writes := [];
      if heater1Status != on {
        writes := Issue(relay, relay.relayStates, [], Switch(heater1Relay, on));
        heater1Status := on;
      }
    }

    method SwitchHeater2(on: bool) returns (writes: seq<Command>)
      requires relay.Valid() && Synced()
      modifies this`heater2Status, relay`relayStates
      ensures relay.Valid() && Synced()
      ensures heater2Status == on
      ensures writes == if old(heater2Status) == on then [] else [Switch(heater2Relay, on)]
      ensures relay.relayStates == ApplyAll(old(relay.relayStates), relay.isInitialized, writes)
    {
      writes := [];
      if heater2Status != on {
        writes := Issue(relay, relay.relayStates, [], Switch(heater2Relay, on));
        heater2Status := on;
      }
    }

    /** A snapshot of the controller whose heater fields satisfy the controller invariant. */
    method GetStatus() returns (st: Status)
      requires Valid()
      ensures st == Status(isRunning, currentTemp, currentHumidity, targetTemp, minTemp, maxTemp,
                           safetyCutoff, heater1Status, heater2Status, safetyTriggered, lastReadingTime)
      ensures st.heater2Status ==> st.heater1Status
      ensures st.safetyTriggered ==> !st.heater1Status && !st.heater2Status
      ensures !st.isRunning ==> !st.heater1Status && !st.heater2Status
    {
      st := Status(isRunning, currentTemp, currentHumidity, targetTemp, minTemp, maxTemp,
                   safetyCutoff, heater1Status, heater2Status, safetyTriggered, lastReadingTime);
    }

    /** Overwrites the given thresholds, keeps the others, and checks no ordering between them. */
    method UpdateSettings(target: Option<real>, min: Option<real>, max: Option<real>, cutoff: Option<real>)
      returns (ok: bool)
      requires Valid()
      modifies this`targetTemp, this`minTemp, this`maxTemp, this`safetyCutoff
      ensures Valid()
      ensures ok
      ensures Config() == Settings(Override(target, old(targetTemp)), Override(min, old(minTemp)),
                                   Override(max, old(maxTemp)), Override(cutoff, old(safetyCutoff)))
    {
      if target.Some? {
        targetTemp := target.value;
      }
      if min.Some? {
        minTemp := min.value;
      }
      if max.Some? {
        maxTemp := max.value;
      }
      if cutoff.Some? {
        safetyCutoff := cutoff.value;
      }
      ok := true;
    }

    /** Stops the loop if it runs and releases the relay board. */
    method Cleanup() returns (ok: bool)
      requires Valid()
      modifies this`isRunning, this`heater1Status, this`heater2Status, relay`relayStates, relay`isInitialized
      ensures Valid()
      ensures ok
      ensures !isRunning && !heater1Status && !heater2Status && !relay.isInitialized
      ensures old(relay.isInitialized) ==> relay.relayStates == seq(relay.numRelays, _ => false)
      ensures !old(relay.isInitialized) ==> relay.relayStates == old(relay.relayStates)
    {
      if isRunning {
        var stopped := Stop();
      }
      if relay.isInitialized {
        var released := relay.Cleanup();
      }
      ok := true;
    }
  }

  /**
   * The default thresholds (target 99.8, range 99.6 to 100.2, cutoff 100.3)
   * fed 99.0, 99.7, 100.0: both heaters, then heater 1 alone, then none.
   */
  method HeatingScenario() returns (heaters: seq<Heaters>)
    ensures heaters == [Heaters(true, true), Heaters(true, false), Heaters(false, false)]
  {
    var c := new TemperatureController(None, None, None, None, None, None, true, true);
    var started := c.Start();
    var w0 := c.Tick(Some(Sample(99.0, 50.0)), 0.0);
    assert c.State() == RunState(true, true, false, Some(99.0), Some(50.0), Some(0.0));
    var h0 := Heaters(c.heater1Status, c.heater2Status);
    var w1 := c.Tick(Some(Sample(99.7, 50.0)), 5.0);
    assert c.State() == RunState(true, false, false, Some(99.7), Some(50.0), Some(5.0));
    var h1 := Heaters(c.heater1Status, c.heater2Status);
    var w2 := c.Tick(Some(Sample(100.0, 50.0)), 10.0);
    assert c.State() == RunState(false, false, false, Some(100.0), Some(50.0), Some(10.0));
    var h2 := Heaters(c.heater1Status, c.heater2Status);
    heaters := [h0, h1, h2];
  }

  /**
   * The default thresholds fed 100.35, 100.1, 99.9, 99.5: the cutoff latches
   * with both heaters off, 100.1 is not below 100.0 so the latch holds, 99.9
   * clears it without switching anything, and 99.5 is regulated again
   * (heater 1 alone).
   */
  method CutoffScenario() returns (heaters: seq<Heaters>, latched: seq<bool>)
    ensures heaters == [Heaters(false, false), Heaters(false, false), Heaters(false, false), Heaters(true, false)]
    ensures latched == [true, true, false, false]
  {
    var c := new TemperatureController(None, None, None, None, None, None, true, true);
    var started := c.Start();
    var w0 := c.Tick(Some(Sample(100.35, 50.0)), 0.0);
    assert c.safetyTriggered && !c.heater1Status && !c.heater2Status;
    var h0, l0 := Heaters(c.heater1Status, c.heater2Status), c.safetyTriggered;
    var w1 := c.Tick(Some(Sample(100.1, 50.0)), 5.0);
    assert c.safetyTriggered && !c.heater1Status && !c.heater2Status;
    var h1, l1 := Heaters(c.heater1Status, c.heater2Status), c.safetyTriggered;
    var w2 := c.Tick(Some(Sample(99.9, 50.0)), 10.0);
    assert !c.safetyTriggered && !c.heater1Status && !c.heater2Status;
    var h2, l2 := Heaters(c.heater1Status, c.heater2Status), c.safetyTriggered;
    var w3 := c.Tick(Some(Sample(99.5, 50.0)), 15.0);
    assert !c.safetyTriggered && c.heater1Status && !c.heater2Status;
    var h3, l3 := Heaters(c.heater1Status, c.heater2Status), c.safetyTriggered;
    heaters, latched := [h0, h1, h2, h3], [l0, l1, l2, l3];
  }
}
