# Sensor data generator: a Dafny model of its core

The sensor data generator service simulates a plant of industrial sensors. It gives each sensor a baseline temperature, vibration and pressure, produces periodic readings degraded by noise, drift and a maintenance factor, and lets operators inject temporary anomalies. Every reading goes to a Kafka topic and to the live WebSocket subscribers.

This project models two parts of that service:

- **`Generator.dfy`** (module `Generator`) models the `IndustrialSensorGenerator`.
  - It is a class with its two dictionaries, `sensorConfigs` and `anomalyStates`, as map fields, plus the start time.
  - Registering, removing and reading a sensor, injecting an anomaly and taking the state snapshot are methods on that class.
  - The reading arithmetic is given by pure functions:
    - `MaintenanceFactor`;
    - `Degraded` (baseline, noise and drift);
    - `DaytimeLoad`;
    - `Expire`, the anomaly expiry check;
    - `Overlay`, the anomaly perturbation;
    - `Synthesize`, the whole reading.
  - `GenerateReading` is the step-by-step method, and its contract ties it to `Synthesize`.
- **`App.dfy`** (module `App`) models the web application's global state as one `Engine` object. That state is:
  - the generator;
  - the configured frequency;
  - whether the generation task exists;
  - the subscriber set and the subscriber instance map;
  - the next subscriber id;
  - the startup flag.

  Its methods are:
  - the `/configure` endpoint (`Configure`), which reconciles the sensor population with `sensor_0 … sensor_{n-1}`;
  - the `/inject-anomaly` endpoint (`InjectAnomalies`);
  - WebSocket registration and deregistration (`Register`, `Unregister`);
  - one pass of the `generate_data` loop (`Tick`, built from `PublishAll`, `Publish`, `Broadcast` and `BroadcastStates`);
  - the startup check (`Startup`).
- **`Decimal.dfy`** (module `Decimal`) models Python's `str` of a non-negative integer, which the sensor ids `f"sensor_{i}"` are built from. It proves that this rendering is injective, which is why a configuration for `n` sensors asks for exactly `n` distinct ids.

The model replaces the service's inputs and outputs as follows:

- **Randomness and the clock** are inputs:
  - `ConfigDraws` holds the draws of `add_sensor`;
  - `ReadingDraws` holds the time, the hour of day, the three Gaussian noise terms and the three daytime-load terms of one reading;
  - `InjectionDraw` holds the severity, duration and time of one injection.

  Each is constrained by a predicate to the range the source samples it from.
- **Python's string `hash`** is a function fixed when the engine is created.
- **A Kafka send** becomes a `SinkRecord`, which a tick returns.
- **Whether one push to one subscriber succeeds** is an input `pushOk(k, id)`, where `k` is the broadcast's number within the tick and `id` is the subscriber.

One consequence of the source is made explicit. `Configure` leaves exactly the desired sensors, and `TestSensorNeverDesired` shows that `test_sensor_0` is never among them. So the first configuration removes the sensor that the startup check registered.

## Model

| member | source | states |
|---|---|---|
| Decimal.NatToString | data-generator/backend/src/main.py:94 | The rendering of a count is a non-empty string of decimal digits, with no leading zero except for 0 itself. |
| Decimal.ParseNatToString | data-generator/backend/src/main.py:94 | Reading the digits back gives the number: parsing inverts `str`. |
| Decimal.NatToStringInjective | data-generator/backend/src/main.py:94 | Two numbers render as the same string if and only if they are equal. |
| Generator.NewConfig | data-generator/backend/src/generator.py:25-47 | A stored configuration has its last maintenance at the registration time. Every parameter lies in the range the source samples it from (test sensors use their fixed values): cycle 120–240 h, temperature 60–80, vibration 0.1–0.3, pressure 90–110, drift 0.001–0.003, noise 0.01–0.05. In particular the cycle is positive, so the maintenance division is defined. |
| Generator.TestConfig | data-generator/backend/src/generator.py:29-37 | A test sensor's configuration is fixed: baselines 70.0 / 0.2 / 100.0, noise 0.01, drift 0.001, a maintenance cycle of one week (168 h), and last maintenance at registration time. |
| Generator.DrawnConfig | data-generator/backend/src/generator.py:39-47 | A non-test sensor's configuration takes its last maintenance from the registration time. With in-range draws, every parameter is in its sampling range: temperature 60–80, vibration 0.1–0.3, pressure 90–110, noise 0.02–0.05, drift 0.001–0.003, cycle 120–240. |
| Generator.InitialAnomalyIsQuiet | data-generator/backend/src/generator.py:49-54 | The state a sensor is registered with (`InitialAnomaly`) is inactive, of no kind, with severity 0, duration 0 and no start time. It is well formed. The expiry check leaves it alone, it adds nothing to a reading, and the reading is `normal`. |
| Generator.InjectedState | data-generator/backend/src/generator.py:124-130 | An injected state is active, of the requested kind, and started at the injection time. With in-range draws it is well formed. |
| Generator.HasExpired | data-generator/backend/src/generator.py:90-91 | Only an active anomaly can expire. An active one has expired if and only if the current time is past its start time plus its duration. |
| Generator.WellFormedSeverity | data-generator/backend/src/generator.py:119-130 | Any state that registration or injection can produce has severity in [0, 1]. An active state has a start time and severity at least 0.5. |
| Generator.Expire | data-generator/backend/src/generator.py:89-92 | After the expiry check, a state is active if and only if it was active and its elapsed time did not exceed its duration. Kind, severity, duration and start time are kept, and well-formedness is preserved. |
| Generator.Overlay | data-generator/backend/src/generator.py:94-100 | A temperature spike adds 20·severity to temperature, a vibration fault adds 1.5·severity to vibration, and a pressure drop subtracts 30·severity from pressure. Any other kind has no effect. |
| Generator.MaintenanceFactor | data-generator/backend/src/generator.py:66-67 | The factor is at most 1. It equals 1 exactly when the hours since maintenance reach the cycle, and it is non-negative when the hours are. |
| Generator.MaintenanceFactorMonotone | data-generator/backend/src/generator.py:66-67 | The factor never decreases as more hours pass since maintenance. |
| Generator.MaintenanceNeededThreshold | data-generator/backend/src/generator.py:109 | `maintenance_factor > 0.8` holds if and only if the hours since maintenance exceed 80% of the cycle. |
| Generator.Degraded | data-generator/backend/src/generator.py:64-77 | Baseline plus noise plus drift: vibration drifts by exactly twice the temperature drift, and pressure drifts by exactly its negation. |
| Generator.DegradedDrift | data-generator/backend/src/generator.py:64-77 | There is no drift at the generator's start or at the sensor's last maintenance. After both, with a non-negative drift rate, the temperature never drops below baseline plus noise. |
| Generator.DaytimeLoad | data-generator/backend/src/generator.py:79-86 | Outside the load hours, and for test readings, there is no load. Within them, with in-range draws, temperature rises by 2–5, vibration by 0.05–0.1 and pressure by 5–10. |
| Generator.Synthesize | data-generator/backend/src/generator.py:56-111 | A reading carries its sensor id, its timestamp and its test flag. It reports `anomaly` if and only if the sensor's anomaly is active and not expired. It asks for maintenance if and only if more than 80% of the cycle has passed. |
| Generator.DaytimeLoadApplies | data-generator/backend/src/generator.py:79-86 | The daytime load perturbs a reading if and only if it is not a test reading and the hour is between 8 and 18 inclusive. A test reading never gets it. |
| Generator.TestReadingIsBaseline | data-generator/backend/src/generator.py:27-37 | A test sensor read at the generator's start time, with zero noise and no anomaly, reports exactly 70.0 / 0.2 / 100.0, state `normal`, and no maintenance needed. |
| Generator.ExpiredAnomalyHasNoEffect | data-generator/backend/src/generator.py:89-108 | An anomaly found expired leaves the reading equal to the one with the anomaly inactive, in state `normal`. |
| Generator.ActiveAnomalyAddsOverlay | data-generator/backend/src/generator.py:88-108 | An active anomaly that has not expired adds exactly its overlay to the reading the sensor would otherwise give, and the state is `anomaly`. |
| Generator.TemperatureSpikeBound | data-generator/backend/src/generator.py:94-96 | While a freshly injected temperature spike lasts, the temperature is at least 10 above the reading without it, and vibration and pressure are unchanged. |
| Generator.IndustrialSensorGenerator.constructor | data-generator/backend/src/generator.py:19-23 | A new generator has no sensors and records its start time. |
| Generator.IndustrialSensorGenerator.AddSensor | data-generator/backend/src/generator.py:25-54 | Registering a sensor, or registering it again, stores its new configuration and resets its anomaly state to the initial one. Nothing else changes, and the two dictionaries keep the same keys. |
| Generator.IndustrialSensorGenerator.GenerateReading | data-generator/backend/src/generator.py:56-111 | An unknown sensor is an error and nothing changes. Otherwise the result is `Synthesize` of the sensor's configuration and anomaly state. The only state change is that sensor's expiry check. |
| Generator.IndustrialSensorGenerator.RemoveSensor | data-generator/backend/src/generator.py:113-117 | The sensor leaves both dictionaries together. An unknown id changes nothing. |
| Generator.IndustrialSensorGenerator.InjectAnomaly | data-generator/backend/src/generator.py:119-130 | An unknown sensor is an error and nothing changes. Otherwise the sensor's anomaly becomes active with the requested kind and the drawn severity, duration and start time. |
| Generator.IndustrialSensorGenerator.GetSensorStates | data-generator/backend/src/generator.py:132-140 | The snapshot has one entry per configured sensor, giving that sensor's anomaly active flag and kind. |
| App.SensorName | data-generator/backend/src/main.py:94 | `f"sensor_{i}"` is the prefix `sensor_` followed by at least one character, all of them decimal digits. |
| App.DesiredSensors | data-generator/backend/src/main.py:94 | Every `sensor_i` with 0 ≤ i < n is asked for, and nothing is asked for when n ≤ 0. The converse is `DesiredSensorsMembership`. |
| App.SensorNameInjective | data-generator/backend/src/main.py:94 | `sensor_i` and `sensor_j` are the same id if and only if i = j. |
| App.DesiredSensorsMembership | data-generator/backend/src/main.py:94 | `sensor_i` is asked for if and only if 0 ≤ i < n. |
| App.DesiredSensorsStep | data-generator/backend/src/main.py:94 | Raising the count from n − 1 to n adds exactly the one new id `sensor_{n-1}`. |
| App.DesiredSensorsCount | data-generator/backend/src/main.py:94 | A configuration for n sensors asks for exactly max(n, 0) distinct ids. |
| App.OnlySensorNamesDesired | data-generator/backend/src/main.py:94 | Every id asked for begins with `sensor_`. |
| App.TestSensorNeverDesired | data-generator/backend/src/main.py:94 | The startup sensor `test_sensor_0` is never asked for, so a configuration removes it. |
| App.DesiredSensorsGrow | data-generator/backend/src/main.py:94 | Raising the count keeps every id asked for before. |
| App.Partition | data-generator/backend/src/main.py:130 | A reading's partition is 0, 1 or 2, and differs from the id's hash by a multiple of 3. |
| App.AfterBroadcast | data-generator/backend/src/main.py:134-145 | A subscriber keeps its registration through one broadcast if and only if its push succeeds. |
| App.Survivors | data-generator/backend/src/main.py:123-160 | The subscribers registered after k broadcasts are a subset of those registered before any. |
| App.SurvivorsExactly | data-generator/backend/src/main.py:134-160 | A subscriber is still registered after k broadcasts if and only if it was registered at the start and each of its first k pushes succeeded. |
| App.FailedSubscriberGetsNothingMore | data-generator/backend/src/main.py:142-160 | A subscriber whose push fails receives no later broadcast. |
| App.SurvivorsShrink | data-generator/backend/src/main.py:142-160 | The set of registered subscribers only shrinks during a tick. |
| App.SentIdsMembers | data-generator/backend/src/main.py:123-131 | Every record's sensor is among the ids sent for, and there are no more distinct ids than records. |
| App.DistinctSentIds | data-generator/backend/src/main.py:123-131 | If the records cover as many sensors as there are records, no sensor appears twice. |
| App.RecordsDone | data-generator/backend/src/main.py:123-131 | At the end of the loop there is exactly one sink record per configured sensor. |
| App.StatesDone | data-generator/backend/src/main.py:123-124 | At the end of the loop, every sensor's anomaly has been put through its expiry check, and only that. |
| App.ExpireAll | data-generator/backend/src/main.py:123-124 | Expiring every sensor keeps the set of sensors. |
| App.ReconciledKeys | data-generator/backend/src/main.py:93-102 | Removing `current − desired` and adding `desired − current` leaves exactly the desired ids. |
| App.KnownPrefix | data-generator/backend/src/main.py:113-114 | The count of leading known ids: every id before it is known, and the id at it, if any, is not. |
| App.LastIndex | data-generator/backend/src/main.py:113-114 | The position of an id's last occurrence in the list, or −1 exactly when the id does not occur. |
| App.Injections | data-generator/backend/src/main.py:113-114 | Injecting into a list of ids, in order, keeps every sensor there was. Every id named ends active with the requested kind. |
| App.InjectionsKeepKeys | data-generator/backend/src/main.py:113-114 | Injecting into known sensors adds no sensor. |
| App.InjectionsUntouched | data-generator/backend/src/main.py:113-114 | A sensor not named in the request keeps its state. |
| App.InjectionsLatest | data-generator/backend/src/main.py:113-114 | A sensor named more than once holds the state of its last injection. |
| App.InjectionsActivate | data-generator/backend/src/main.py:113-114 | Every sensor named in the request is left active with the requested kind. |
| App.Restrict | data-generator/backend/src/main.py:142-145 | Keeping only some subscriber ids keeps exactly those instances, unchanged. |
| App.RestrictTwice | data-generator/backend/src/main.py:142-145 | Two successive removals amount to one removal down to the smaller set. |
| App.Engine.constructor | data-generator/backend/src/main.py:48-50 | At import time there are no sensors and no subscribers, the next subscriber id is 0, no frequency is set, no task exists, and startup is not complete. |
| App.Engine.TickFrequency | data-generator/backend/src/main.py:121 | The frequency a tick uses is the configured one, or 1 Hz if none was ever configured. |
| App.Engine.Register | data-generator/backend/src/main.py:66-72 | A new subscriber gets the next id, which is fresh. That id is added to both the set and the instance map, and the counter advances by one. |
| App.Engine.Unregister | data-generator/backend/src/main.py:78-81 | A disconnected subscriber's id leaves both structures. An absent id changes nothing. |
| App.Engine.Broadcast | data-generator/backend/src/main.py:134-145 | One broadcast is pushed to a snapshot of the subscribers. Exactly those whose push succeeds stay registered and receive it, and the others are dropped from both structures. |
| App.Engine.RemoveSensors | data-generator/backend/src/main.py:97-98 | Every surplus sensor leaves both generator dictionaries. |
| App.Engine.AddSensors | data-generator/backend/src/main.py:101-102 | Every missing sensor is added with its drawn configuration and the initial anomaly state. |
| App.Engine.Reconcile | data-generator/backend/src/main.py:93-102 | Afterwards the sensors are exactly the desired ones. The kept sensors keep their configuration and anomaly state, and the new ones get drawn configurations and the initial state. |
| App.Engine.Configure | data-generator/backend/src/main.py:83-108 | Configuring sets the frequency, leaves exactly `sensor_0 … sensor_{n-1}` (as in `Reconcile`), and creates the generation task only if it does not exist yet. The subscribers are unchanged. |
| App.Engine.InjectAnomalies | data-generator/backend/src/main.py:110-116 | The ids are injected in order. The first unknown id ends the call with an error, and the injections before it remain. |
| App.Engine.Publish | data-generator/backend/src/main.py:124-145 | One sensor's step: its reading is `Synthesize` of its state as a non-test reading. The reading is sent to the readings topic at its hash partition and then broadcast. |
| App.Engine.PublishAll | data-generator/backend/src/main.py:123-145 | After the loop over the sensors, each has one record and one broadcast, with the anomaly states expired and the registered subscribers being the survivors. |
| App.Engine.BroadcastStates | data-generator/backend/src/main.py:147-160 | The closing broadcast carries the state snapshot taken after the readings. |
| App.Engine.Tick | data-generator/backend/src/main.py:118-160 | One pass of the generation loop. It uses the configured frequency. It sends exactly one record per configured sensor, each synthesized from the state at the pass's start and sent at its hash partition. It expires every anomaly where due, and makes one broadcast per reading plus a final state broadcast. After k broadcasts, only the subscribers whose first k pushes succeeded remain, and the sensor configurations are unchanged. |
| App.Engine.Startup | data-generator/backend/src/main.py:167-194 | If startup already completed, nothing happens. Otherwise the test sensor is registered with its fixed configuration, and its test reading is sent to partition 0 of the readings topic. Startup counts as complete only if the sink reports success. |

## Left out

- Kafka itself (the `KafkaWrapper`, `kafka_utils`) is not part of this model. A sink send is a returned `SinkRecord`, and partition assignment is only the computed partition number.
- The import-time test message to Kafka (main.py:34-46) is left out. It changes no state the model holds, and its failure is only logged.
- The WebSocket transport is replaced by the `pushOk` input, and so is the content of a failed send's exception. Connection acceptance and the receive loop are left out. Only their register and unregister effects are modelled.
- asyncio concurrency is left out: endpoint calls and subscriber connections interleaving with a tick at its `await` points. Each operation is modelled as atomic. A subscriber that registers during a tick's broadcast is not modelled.
- The generation loop runs forever, and the model gives one pass of it (`Tick`). The `asyncio.sleep(1 / current_frequency)` at main.py:162 is left out. `Tick` returns the frequency it read. A frequency of 0 would make that division fail, and that is not modelled.
- Dictionary and set iteration order is not modelled. Sensors and subscribers are handled in an arbitrary order. The contracts hold for every order.
- App.Engine.AddSensors: all sensors added by one configuration get the same `now` as last maintenance. In the source, each `add_sensor` reads the clock itself (generator.py:36 and 46), so their times may differ by the time the loop takes.
- App.Engine.Tick: a pass always completes in the model. In the source, a sink send that still fails after its connection retries raises an exception. That exception escapes `generate_data` at main.py:127 and ends the generation task, which stops all further ticks. The Kafka client is not part of this model.
- `generate_reading` calls `time.time()` four times, and `time.localtime()` once. The model gives all of them one `now` and one hour of day per reading.
- Generator.Synthesize: the rounding at generator.py:105-107 (temperature to 2 places, vibration to 3, pressure to 1) is not modelled. Readings are exact reals, and floating-point error is not modelled either.
- The Gaussian noise is an arbitrary real input. Its distribution and its dependence on `noise_level` are not modelled, so `noiseLevel` only appears in the configuration.
- The distribution of the uniform draws is left out. Only their ranges are kept.
- App.Engine.Startup: the exception path at main.py:192-194 is not modelled. An exception from the sink would be logged and re-raised, and in the model the sink only reports success or failure (`sinkOk`).
- The HTTP layer is left out: request validation by the pydantic models, CORS, and the endpoints' JSON responses.
- Logging is left out.
- Python's `hash` of a string depends on the process. It is a fixed but arbitrary function, so nothing is proved about how readings spread over the partitions.
