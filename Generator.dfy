/**
 The industrial sensor generator: a registry of sensor configurations, a
 per-sensor anomaly state machine, and the synthesis of one reading from a
 configuration, the clock and the random draws.

 The clock (`time.time()`, the local hour of day) and every random draw
 (`random.uniform`, `random.randint`, `np.random.normal`) are inputs here, each
 restricted to the range the generator samples it from; the arithmetic is
 exact arithmetic over `real`, and the final rounding of a reading is not
 modelled.
 */
module Generator {

  datatype Option<T> = None | Some(value: T)

  datatype Error = UnknownSensor(sensorId: string)

  datatype Result<T> = Ok(value: T) | Err(error: Error)

  /** Static parameters of one sensor. `maintenanceCycle` is in hours,
      `lastMaintenance` a wall-clock time in seconds. */
  datatype SensorConfig = SensorConfig(
    baseTemperature: real,
    baseVibration: real,
    basePressure: real,
    noiseLevel: real,
    driftRate: real,
    maintenanceCycle: int,
    lastMaintenance: real)

  /** The anomaly state of one sensor. The state a sensor starts with has no
      start time at all; only an injected state records one. */
  datatype AnomalyState = AnomalyState(
    active: bool,
    kind: Option<string>,
    severity: real,
    duration: int,
    startTime: Option<real>)

  datatype OperationalState = Normal | Anomaly

  /** One reading, before rounding. */
  datatype Reading = Reading(
    sensorId: string,
    timestamp: real,
    temperature: real,
    vibration: real,
    pressure: real,
    operationalState: OperationalState,
    maintenanceNeeded: bool,
    isTest: bool)

  /** What the state snapshot reports of one sensor. */
  datatype SensorStateView = SensorStateView(anomalyActive: bool, anomalyType: Option<string>)

  /** The three measured channels, used for the additive effects on a reading. */
  datatype Channels = Channels(temperature: real, vibration: real, pressure: real)

  const NoEffect := Channels(0.0, 0.0, 0.0)

  function Add(a: Channels, b: Channels): Channels
  {
    Channels(a.temperature + b.temperature, a.vibration + b.vibration, a.pressure + b.pressure)
  }

  // ---------------------------------------------------------------------------
  // Inputs that the source takes from its random source and its clock
  // ---------------------------------------------------------------------------

  /** The draws `add_sensor` makes for a non-test sensor. */
  datatype ConfigDraws = ConfigDraws(
    temperature: real,
    vibration: real,
    pressure: real,
    noise: real,
    drift: real,
    cycle: int)

  /** The ranges of `random.uniform` and of `random.randint(120, 240)`,
      both ends included. */
  predicate ConfigDrawsInRange(d: ConfigDraws)
  {
    && 60.0 <= d.temperature <= 80.0
    && 0.1 <= d.vibration <= 0.3
    && 90.0 <= d.pressure <= 110.0
    && 0.02 <= d.noise <= 0.05
    && 0.001 <= d.drift <= 0.003
    && 120 <= d.cycle <= 240
  }

  /** The clock and the draws of one `generate_reading` call: the current
      time, the local hour of day, the three Gaussian noise terms and the
      three daytime-load terms. */
  datatype ReadingDraws = ReadingDraws(
    now: real,
    hourOfDay: int,
    noiseTemperature: real,
    noiseVibration: real,
    noisePressure: real,
    loadTemperature: real,
    loadVibration: real,
    loadPressure: real)

  predicate ReadingDrawsInRange(d: ReadingDraws)
  {
    && 0 <= d.hourOfDay <= 23
    && 2.0 <= d.loadTemperature <= 5.0
    && 0.05 <= d.loadVibration <= 0.1
    && 5.0 <= d.loadPressure <= 10.0
  }

  /** The clock and the draws of one `inject_anomaly` call. */
  datatype InjectionDraw = InjectionDraw(severity: real, duration: int, now: real)

  predicate InjectionDrawInRange(d: InjectionDraw)
  {
    0.5 <= d.severity <= 1.0 && 10 <= d.duration <= 30
  }

  // ---------------------------------------------------------------------------
  // Sensor configurations
  // ---------------------------------------------------------------------------

  /** The fixed configuration of a test sensor: the nominal baselines, the
      least noise and drift, and a maintenance cycle of one week. */
  function TestConfig(now: real): (c: SensorConfig)
    ensures c.baseTemperature == 70.0 && c.baseVibration == 0.2 && c.basePressure == 100.0
    ensures c.noiseLevel == 0.01 && c.driftRate == 0.001
    ensures c.maintenanceCycle == 7 * 24 && c.lastMaintenance == now
  {
    SensorConfig(70.0, 0.2, 100.0, 0.01, 0.001, 168, now)
  }

  /** The configuration of a non-test sensor built from its draws: each
      parameter is the draw made for it, so in-range draws give in-range
      parameters, and the sensor counts as maintained at `now`. */
  function DrawnConfig(d: ConfigDraws, now: real): (c: SensorConfig)
    ensures c.lastMaintenance == now
    ensures ConfigDrawsInRange(d) ==>
              && 60.0 <= c.baseTemperature <= 80.0 && 0.1 <= c.baseVibration <= 0.3
              && 90.0 <= c.basePressure <= 110.0 && 0.02 <= c.noiseLevel <= 0.05
              && 0.001 <= c.driftRate <= 0.003 && 120 <= c.maintenanceCycle <= 240
  {
    SensorConfig(d.temperature, d.vibration, d.pressure, d.noise, d.drift, d.cycle, now)
  }

  /** The configuration `add_sensor` stores; its maintenance cycle is always
      positive, so the maintenance factor of its readings is defined. */
  function NewConfig(isTest: bool, d: ConfigDraws, now: real): (c: SensorConfig)
    requires isTest || ConfigDrawsInRange(d)
    ensures c.lastMaintenance == now
    ensures 120 <= c.maintenanceCycle <= 240
    ensures 60.0 <= c.baseTemperature <= 80.0
    ensures 0.1 <= c.baseVibration <= 0.3
    ensures 90.0 <= c.basePressure <= 110.0
    ensures 0.001 <= c.driftRate <= 0.003
    ensures 0.01 <= c.noiseLevel <= 0.05
  {
    if isTest then TestConfig(now) else DrawnConfig(d, now)
  }

  // ---------------------------------------------------------------------------
  // The anomaly state machine
  // ---------------------------------------------------------------------------

  /** The state every sensor is created with. */
  const InitialAnomaly := AnomalyState(false, None, 0.0, 0, None)

  /** The state `inject_anomaly(_, kind)` stores: active, of the requested
      kind, started at the time of the injection; with in-range draws it is
      well formed. */
  function InjectedState(kind: string, d: InjectionDraw): (a: AnomalyState)
    ensures a.active && a.kind == Some(kind) && a.startTime == Some(d.now)
    ensures InjectionDrawInRange(d) ==> WellFormedAnomaly(a)
  {
    AnomalyState(true, Some(kind), d.severity, d.duration, Some(d.now))
  }

  /** A state is either the initial one or one that was injected (and may
      since have expired, which clears only the active flag). */
  predicate WellFormedAnomaly(a: AnomalyState)
  {
    || a == InitialAnomaly
    || (&& a.kind.Some? && a.startTime.Some?
        && 0.5 <= a.severity <= 1.0 && 10 <= a.duration <= 30)
  }

  lemma WellFormedSeverity(a: AnomalyState)
    requires WellFormedAnomaly(a)
    ensures 0.0 <= a.severity <= 1.0
    ensures a.active ==> a.startTime.Some? && 0.5 <= a.severity
  {
  }

  /** Whether an active anomaly has outlived its duration at time `now`. */
  predicate HasExpired(a: AnomalyState, now: real)
    requires a.active ==> a.startTime.Some?
    ensures HasExpired(a, now) ==> a.active
    ensures a.active ==> (HasExpired(a, now) <==> now > a.startTime.value + a.duration as real)
  {
    a.active && now - a.startTime.value > a.duration as real
  }

  /** The expiry check of `generate_reading`: an active anomaly whose elapsed
      time exceeds its duration becomes inactive, keeping everything else. */
  function Expire(a: AnomalyState, now: real): (a': AnomalyState)
    requires a.active ==> a.startTime.Some?
    ensures a'.active <==> a.active && !HasExpired(a, now)
    ensures a'.kind == a.kind && a'.severity == a.severity
    ensures a'.duration == a.duration && a'.startTime == a.startTime
    ensures WellFormedAnomaly(a) ==> WellFormedAnomaly(a')
  {
    if HasExpired(a, now) then a.(active := false) else a
  }

  /** The perturbation an active, unexpired anomaly adds to a reading. */
  function Overlay(a: AnomalyState): (e: Channels)
    ensures a.kind == Some("temperature_spike") ==> e == Channels(20.0 * a.severity, 0.0, 0.0)
    ensures a.kind == Some("vibration_fault") ==> e == Channels(0.0, 1.5 * a.severity, 0.0)
    ensures a.kind == Some("pressure_drop") ==> e == Channels(0.0, 0.0, -30.0 * a.severity)
    ensures (a.kind !in {Some("temperature_spike"), Some("vibration_fault"), Some("pressure_drop")})
              ==> e == NoEffect
  {
    match a.kind
    case Some(k) =>
      if k == "temperature_spike" then Channels(20.0 * a.severity, 0.0, 0.0)
      else if k == "vibration_fault" then Channels(0.0, 1.5 * a.severity, 0.0)
      else if k == "pressure_drop" then Channels(0.0, 0.0, -30.0 * a.severity)
      else NoEffect
    case None => NoEffect
  }

  // ---------------------------------------------------------------------------
  // Reading synthesis
  // ---------------------------------------------------------------------------

  /** The maintenance factor `min(1, hours / cycle)`. */
  function MaintenanceFactor(hours: real, cycle: int): (f: real)
    requires cycle > 0
    ensures f <= 1.0
    ensures f == 1.0 <==> hours >= cycle as real
    ensures hours >= 0.0 ==> f >= 0.0
  {
    var ratio := hours / cycle as real;
    if ratio < 1.0 then ratio else 1.0
  }

  /** The factor does not decrease as more hours since maintenance pass. */
  lemma MaintenanceFactorMonotone(h1: real, h2: real, cycle: int)
    requires cycle > 0 && h1 <= h2
    ensures MaintenanceFactor(h1, cycle) <= MaintenanceFactor(h2, cycle)
  {
    var c := cycle as real;
    assert h1 / c <= h2 / c by {
      assert h2 / c - h1 / c == (h2 - h1) / c;
    }
  }

  /** A reading asks for maintenance exactly when more than 80% of the
      maintenance cycle has passed. */
  lemma MaintenanceNeededThreshold(hours: real, cycle: int)
    requires cycle > 0
    ensures MaintenanceFactor(hours, cycle) > 0.8 <==> hours > 0.8 * cycle as real
  {
    var c := cycle as real;
    assert hours / c * c == hours;
    if hours / c > 0.8 {
      assert hours > 0.8 * c;
    }
  }

  /** The hours since the last maintenance of `c` at time `now`. */
  function HoursSinceMaintenance(c: SensorConfig, now: real): real
  {
    (now - c.lastMaintenance) / 3600.0
  }

  /** Whether the daytime load applies: only to non-test readings, and only
      between 8 and 18 o'clock, both hours included. */
  predicate UnderDaytimeLoad(isTest: bool, hourOfDay: int)
  {
    !isTest && 8 <= hourOfDay <= 18
  }

  /** The daytime-load perturbation of one reading: nothing outside the
      load hours, otherwise a rise of every channel within the sampled
      ranges. */
  function DaytimeLoad(isTest: bool, d: ReadingDraws): (e: Channels)
    ensures !UnderDaytimeLoad(isTest, d.hourOfDay) ==> e == NoEffect
    ensures UnderDaytimeLoad(isTest, d.hourOfDay) && ReadingDrawsInRange(d) ==>
              && 2.0 <= e.temperature <= 5.0 && 0.05 <= e.vibration <= 0.1 && 5.0 <= e.pressure <= 10.0
  {
    if UnderDaytimeLoad(isTest, d.hourOfDay)
    then Channels(d.loadTemperature, d.loadVibration, d.loadPressure)
    else NoEffect
  }

  /** Baseline plus Gaussian noise plus the drift term, which grows with the
      time since the generator started, scaled by the maintenance factor;
      vibration drifts twice as fast and pressure drifts downwards. */
  function Degraded(c: SensorConfig, startTime: real, d: ReadingDraws): (e: Channels)
    requires c.maintenanceCycle > 0
    ensures var t := e.temperature - (c.baseTemperature + d.noiseTemperature);
            && e.vibration - (c.baseVibration + d.noiseVibration) == 2.0 * t
            && e.pressure - (c.basePressure + d.noisePressure) == -t
  {
    var elapsed := d.now - startTime;
    var factor := MaintenanceFactor(HoursSinceMaintenance(c, d.now), c.maintenanceCycle);
    Channels(c.baseTemperature + d.noiseTemperature + c.driftRate * elapsed * factor,
             c.baseVibration + d.noiseVibration + c.driftRate * elapsed * factor * 2.0,
             c.basePressure + d.noisePressure - c.driftRate * elapsed * factor)
  }

  lemma NonNegativeProduct(x: real, y: real)
    requires x >= 0.0 && y >= 0.0
    ensures x * y >= 0.0
  {
  }

  /** There is no drift at the moment the generator starts or the sensor was
      maintained; after both, a non-negative drift rate never lowers the
      temperature. */
  lemma DegradedDrift(c: SensorConfig, startTime: real, d: ReadingDraws)
    requires c.maintenanceCycle > 0
    ensures (d.now == startTime || d.now == c.lastMaintenance) ==>
              Degraded(c, startTime, d) == Channels(c.baseTemperature + d.noiseTemperature,
                                                    c.baseVibration + d.noiseVibration,
                                                    c.basePressure + d.noisePressure)
    ensures d.now >= startTime && d.now >= c.lastMaintenance && c.driftRate >= 0.0 ==>
              Degraded(c, startTime, d).temperature >= c.baseTemperature + d.noiseTemperature
  {
    if d.now >= startTime && d.now >= c.lastMaintenance && c.driftRate >= 0.0 {
      var elapsed := d.now - startTime;
      var factor := MaintenanceFactor(HoursSinceMaintenance(c, d.now), c.maintenanceCycle);
      NonNegativeProduct(c.driftRate, elapsed);
      NonNegativeProduct(c.driftRate * elapsed, factor);
    }
  }

  /** The reading `generate_reading` returns for a sensor with configuration
      `c` and anomaly state `a` in a generator started at `startTime`.
      Noise and drift come first, then the daytime load, then the overlay of
      the anomaly state as the expiry check leaves it. */
  function Synthesize(sensorId: string, c: SensorConfig, a: AnomalyState, startTime: real,
                      isTest: bool, d: ReadingDraws): (r: Reading)
    requires c.maintenanceCycle > 0
    requires a.active ==> a.startTime.Some?
    ensures r.sensorId == sensorId && r.timestamp == d.now && r.isTest == isTest
    ensures r.operationalState == Anomaly <==> a.active && !HasExpired(a, d.now)
    ensures r.maintenanceNeeded <==>
              HoursSinceMaintenance(c, d.now) > 0.8 * c.maintenanceCycle as real
  {
    var factor := MaintenanceFactor(HoursSinceMaintenance(c, d.now), c.maintenanceCycle);
    MaintenanceNeededThreshold(HoursSinceMaintenance(c, d.now), c.maintenanceCycle);
    var loaded := Add(Degraded(c, startTime, d), DaytimeLoad(isTest, d));
    var a' := Expire(a, d.now);
    var out := if a'.active then Add(loaded, Overlay(a')) else loaded;
    Reading(sensorId, d.now, out.temperature, out.vibration, out.pressure,
            if a'.active then Anomaly else Normal, factor > 0.8, isTest)
  }

  /** The daytime load is applied exactly to non-test readings taken between
      8 and 18 o'clock. */
  lemma DaytimeLoadApplies(isTest: bool, d: ReadingDraws)
    requires ReadingDrawsInRange(d)
    ensures DaytimeLoad(isTest, d) != NoEffect <==> !isTest && 8 <= d.hourOfDay <= 18
    ensures isTest ==> DaytimeLoad(isTest, d) == NoEffect
  {
  }

  /** A test sensor read at the moment the generator started, with zero noise
      and no anomaly, reports exactly its fixed baselines. */
  lemma TestReadingIsBaseline(sensorId: string, now: real, a: AnomalyState, d: ReadingDraws)
    requires !a.active
    requires d.now == now
    requires d.noiseTemperature == 0.0 && d.noiseVibration == 0.0 && d.noisePressure == 0.0
    ensures var r := Synthesize(sensorId, TestConfig(now), a, now, true, d);
            && r.temperature == 70.0 && r.vibration == 0.2 && r.pressure == 100.0
            && r.operationalState == Normal && !r.maintenanceNeeded
  {
    var c := TestConfig(now);
    assert HoursSinceMaintenance(c, d.now) == 0.0;
    assert Degraded(c, now, d) == Channels(70.0, 0.2, 100.0);
  }

  /** An anomaly found expired applies no overlay: the reading is the one the
      sensor would give with its anomaly inactive. */
  lemma ExpiredAnomalyHasNoEffect(sensorId: string, c: SensorConfig, a: AnomalyState,
                                  startTime: real, isTest: bool, d: ReadingDraws)
    requires c.maintenanceCycle > 0
    requires a.active ==> a.startTime.Some?
    requires HasExpired(a, d.now)
    ensures Synthesize(sensorId, c, a, startTime, isTest, d)
         == Synthesize(sensorId, c, a.(active := false), startTime, isTest, d)
    ensures Synthesize(sensorId, c, a, startTime, isTest, d).operationalState == Normal
  {
  }

  /** An active, unexpired anomaly adds exactly its overlay to the reading the
      sensor would otherwise give, and the reading reports it. */
  lemma ActiveAnomalyAddsOverlay(sensorId: string, c: SensorConfig, a: AnomalyState,
                                 startTime: real, isTest: bool, d: ReadingDraws)
    requires c.maintenanceCycle > 0
    requires a.active && a.startTime.Some?
    requires !HasExpired(a, d.now)
    ensures var r := Synthesize(sensorId, c, a, startTime, isTest, d);
            var q := Synthesize(sensorId, c, a.(active := false), startTime, isTest, d);
            && r.operationalState == Anomaly
            && r.temperature == q.temperature + Overlay(a).temperature
            && r.vibration == q.vibration + Overlay(a).vibration
            && r.pressure == q.pressure + Overlay(a).pressure
  {
  }

  /** The state a sensor is registered with is quiet: inactive, of no kind,
      untouched by the expiry check and adding nothing to a reading, which
      therefore reports the normal state. */
  lemma InitialAnomalyIsQuiet(sensorId: string, c: SensorConfig, startTime: real, isTest: bool, d: ReadingDraws)
    requires c.maintenanceCycle > 0
    ensures WellFormedAnomaly(InitialAnomaly) && !InitialAnomaly.active && InitialAnomaly.kind == None
    ensures InitialAnomaly.severity == 0.0 && InitialAnomaly.duration == 0 && InitialAnomaly.startTime == None
    ensures Expire(InitialAnomaly, d.now) == InitialAnomaly && Overlay(InitialAnomaly) == NoEffect
    ensures Synthesize(sensorId, c, InitialAnomaly, startTime, isTest, d).operationalState == Normal
  {
  }

  /** A reading taken while a freshly injected temperature spike lasts is at
      least 10 degrees (20 times the least severity) above the reading
      without it. */
  lemma TemperatureSpikeBound(sensorId: string, c: SensorConfig, inj: InjectionDraw,
                              startTime: real, isTest: bool, d: ReadingDraws)
    requires c.maintenanceCycle > 0
    requires InjectionDrawInRange(inj)
    requires inj.now <= d.now <= inj.now + inj.duration as real
    ensures var r := Synthesize(sensorId, c, InjectedState("temperature_spike", inj), startTime, isTest, d);
            var q := Synthesize(sensorId, c, InitialAnomaly, startTime, isTest, d);
            && r.operationalState == Anomaly
            && r.temperature >= q.temperature + 10.0
            && r.vibration == q.vibration && r.pressure == q.pressure
  {
    var a := InjectedState("temperature_spike", inj);
    ActiveAnomalyAddsOverlay(sensorId, c, a, startTime, isTest, d);
    assert Synthesize(sensorId, c, a.(active := false), startTime, isTest, d)
        == Synthesize(sensorId, c, InitialAnomaly, startTime, isTest, d);
  }

  // ---------------------------------------------------------------------------
  // The generator object
  // ---------------------------------------------------------------------------

  class IndustrialSensorGenerator {
    var sensorConfigs: map<string, SensorConfig>
    var anomalyStates: map<string, AnomalyState>
    const startTime: real

    /** Both dictionaries have the same keys; every configuration has a
        positive maintenance cycle and every anomaly state is well formed. */
    ghost predicate Valid()
      reads this
    {
      && sensorConfigs.Keys == anomalyStates.Keys
      && (forall id :: id in sensorConfigs ==> sensorConfigs[id].maintenanceCycle > 0)
      && (forall id :: id in anomalyStates ==> WellFormedAnomaly(anomalyStates[id]))
    }

    constructor (now: real)
      ensures Valid()
      ensures sensorConfigs == map[] && anomalyStates == map[]
      ensures startTime == now
    {
      sensorConfigs := map[];
      anomalyStates := map[];
      startTime := now;
    }

    /** Registers (or re-registers) `sensorId` with a fresh configuration and
        the initial anomaly state. */
    method AddSensor(sensorId: string, isTest: bool, now: real, d: ConfigDraws)
      requires Valid()
      requires isTest || ConfigDrawsInRange(d)
      modifies this
      ensures Valid()
      ensures sensorConfigs == old(sensorConfigs)[sensorId := NewConfig(isTest, d, now)]
      ensures anomalyStates == old(anomalyStates)[sensorId := InitialAnomaly]
    {
      if isTest {
        sensorConfigs := sensorConfigs[sensorId := TestConfig(now)];
      } else {
        sensorConfigs := sensorConfigs[sensorId := DrawnConfig(d, now)];
      }
      anomalyStates := anomalyStates[sensorId := InitialAnomaly];
    }

    /** Produces one reading of `sensorId`; as a side effect the expiry check
        may deactivate its anomaly. An unknown sensor is an error and changes
        nothing. */
    method GenerateReading(sensorId: string, isTest: bool, d: ReadingDraws) returns (r: Result<Reading>)
      requires Valid()
      requires ReadingDrawsInRange(d)
      modifies this
      ensures Valid()
      ensures sensorConfigs == old(sensorConfigs)
      ensures sensorId !in old(sensorConfigs) ==>
                r == Err(UnknownSensor(sensorId)) && anomalyStates == old(anomalyStates)
      ensures sensorId in old(sensorConfigs) ==>
                && r == Ok(Synthesize(sensorId, old(sensorConfigs)[sensorId], old(anomalyStates)[sensorId],
                                      startTime, isTest, d))
                && anomalyStates == old(anomalyStates)[sensorId := Expire(old(anomalyStates)[sensorId], d.now)]
    {
      if sensorId !in sensorConfigs {
        return Err(UnknownSensor(sensorId));
      }
      var config := sensorConfigs[sensorId];
      var anomaly := anomalyStates[sensorId];

      var elapsed := d.now - startTime;
      var hours := (d.now - config.lastMaintenance) / 3600.0;
      var factor := MaintenanceFactor(hours, config.maintenanceCycle);

      var temp := config.baseTemperature + d.noiseTemperature;
      temp := temp + config.driftRate * elapsed * factor;
      var vibration := config.baseVibration + d.noiseVibration;
      vibration := vibration + config.driftRate * elapsed * factor * 2.0;
      var pressure := config.basePressure + d.noisePressure;
      pressure := pressure - config.driftRate * elapsed * factor;
      assert Channels(temp, vibration, pressure) == Degraded(config, startTime, d);

      if !isTest {
        if 8 <= d.hourOfDay <= 18 {
          temp := temp + d.loadTemperature;
          vibration := vibration + d.loadVibration;
          pressure := pressure + d.loadPressure;
        }
      }
      ghost var loaded := Add(Degraded(config, startTime, d), DaytimeLoad(isTest, d));
      assert Channels(temp, vibration, pressure) == loaded;

      if anomaly.active {
        var anomalyElapsed := d.now - anomaly.startTime.value;
        if anomalyElapsed > anomaly.duration as real {
          anomaly := anomaly.(active := false);
          anomalyStates := anomalyStates[sensorId := anomaly];
        } else {
          var severity := anomaly.severity;
          if anomaly.kind == Some("temperature_spike") {
            temp := temp + 20.0 * severity;
          } else if anomaly.kind == Some("vibration_fault") {
            vibration := vibration + 1.5 * severity;
          } else if anomaly.kind == Some("pressure_drop") {
            pressure := pressure - 30.0 * severity;
          }
        }
      }

      assert anomaly == Expire(old(anomalyStates)[sensorId], d.now);
      assert Channels(temp, vibration, pressure) == if anomaly.active then Add(loaded, Overlay(anomaly)) else loaded;
      MaintenanceNeededThreshold(hours, config.maintenanceCycle);
      r := Ok(Reading(sensorId, d.now, temp, vibration, pressure,
                      if anomaly.active then Anomaly else Normal, factor > 0.8, isTest));
    }

    /** Deletes the configuration and the anomaly state of `sensorId`
        together; an unknown id is left alone. */
    method RemoveSensor(sensorId: string)
      requires Valid()
      modifies this
      ensures Valid()
      ensures sensorConfigs == old(sensorConfigs) - {sensorId}
      ensures anomalyStates == old(anomalyStates) - {sensorId}
    {
      if sensorId in sensorConfigs {
        sensorConfigs := sensorConfigs - {sensorId};
        anomalyStates := anomalyStates - {sensorId};
      }
    }

    /** Replaces the anomaly state of `sensorId` by an active one of the given
        kind; an unknown sensor is an error and changes nothing. */
    method InjectAnomaly(sensorId: string, kind: string, d: InjectionDraw) returns (r: Result<()>)
      requires Valid()
      requires InjectionDrawInRange(d)
      modifies this
      ensures Valid()
      ensures sensorConfigs == old(sensorConfigs)
      ensures sensorId !in old(sensorConfigs) ==>
                r == Err(UnknownSensor(sensorId)) && anomalyStates == old(anomalyStates)
      ensures sensorId in old(sensorConfigs) ==>
                r == Ok(()) && anomalyStates == old(anomalyStates)[sensorId := InjectedState(kind, d)]
    {
      if sensorId !in sensorConfigs {
        return Err(UnknownSensor(sensorId));
      }
      anomalyStates := anomalyStates[sensorId := InjectedState(kind, d)];
      r := Ok(());
    }

    /** The state snapshot: one entry per configured sensor, holding its
        anomaly's active flag and kind. */
    function GetSensorStates(): (states: map<string, SensorStateView>)
      reads this
      requires Valid()
      ensures states.Keys == sensorConfigs.Keys
      ensures forall id :: id in states ==>
                (states[id].anomalyActive <==> anomalyStates[id].active)
                && states[id].anomalyType == anomalyStates[id].kind
    {
      map id | id in sensorConfigs :: SensorStateView(anomalyStates[id].active, anomalyStates[id].kind)
    }
  }
}
