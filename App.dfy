/**
 The dissemination engine of the sensor data generator service: the globals
 of the web application (the generator object, the frequency setting, the
 generation task, the live-subscriber registry and the startup flag) held as
 fields of one `Engine` object, with the configuration and injection
 endpoints, subscriber registration, one tick of the generation loop and the
 startup check as its methods.

 The durable sink (Kafka), the WebSocket transport, asyncio and the
 generator's random source are not modelled: a sink send becomes a record the
 tick returns, whether one push to a subscriber succeeds is an input
 `pushOk(k, id)` (broadcast number `k` of the tick, subscriber `id`), and
 Python's per-process string hash is a function fixed when the engine is
 created.
 */
module App {
  import opened Decimal
  import opened Generator

  /** The Kafka topic every reading goes to. */
  const Topic := "raw-sensor-data"

  /** The number of partitions readings are spread over. */
  const PartitionCount := 3

  /** The frequency a tick uses when none was ever configured. */
  const DefaultFrequency := 1.0

  /** The sensor the startup check registers and reads. */
  const TestSensorId := "test_sensor_0"

  /** The draws passed when registering a test sensor, whose configuration is
      fixed and ignores them. */
  const NoConfigDraws := ConfigDraws(0.0, 0.0, 0.0, 0.0, 0.0, 0)

  /** The live transport behind one subscriber id. */
  datatype Connection = Connection(handle: nat)

  /** Whether the generation task has been created. */
  datatype LoopState = NotStarted | Running

  /** A message pushed to the live subscribers, by its `type` tag. */
  datatype Message =
    | SensorReading(reading: Reading)
    | SensorStates(states: map<string, SensorStateView>)

  /** One message handed to the sink. */
  datatype SinkRecord = SinkRecord(topic: string, value: Reading, partition: int)

  /** One broadcast of a tick and the subscribers that received it. */
  datatype Delivery = Delivery(message: Message, recipients: set<nat>)

  // ---------------------------------------------------------------------------
  // The sensor population asked for by a configuration
  // ---------------------------------------------------------------------------

  /** The id `f"sensor_{i}"`: the prefix `sensor_` followed by the decimal
      digits of `i`. */
  function SensorName(i: nat): (id: string)
    ensures |id| > 7 && id[..7] == "sensor_"
    ensures forall k :: 7 <= k < |id| ==> '0' <= id[k] <= '9'
  {
    "sensor_" + NatToString(i)
  }

  lemma SensorNameInjective(i: nat, j: nat)
    ensures SensorName(i) == SensorName(j) <==> i == j
  {
    if SensorName(i) == SensorName(j) {
      assert SensorName(i)[7..] == NatToString(i);
      assert SensorName(j)[7..] == NatToString(j);
      NatToStringInjective(i, j);
    }
  }

  /** `{f"sensor_{i}" for i in range(n)}`; empty for a count that is not positive. */
  function DesiredSensors(n: int): (ids: set<string>)
    ensures forall i: nat :: i < n ==> SensorName(i) in ids
    ensures n <= 0 ==> ids == {}
  {
    set i: nat | i < n :: SensorName(i)
  }

  /** `sensor_i` is asked for exactly when `0 <= i < n`. */
  lemma DesiredSensorsMembership(n: int, i: nat)
    ensures SensorName(i) in DesiredSensors(n) <==> i < n
  {
    if SensorName(i) in DesiredSensors(n) {
      var j: nat :| j < n && SensorName(j) == SensorName(i);
      SensorNameInjective(i, j);
    }
  }

  /** Asking for one more sensor adds exactly one new id. */
  lemma DesiredSensorsStep(n: int)
    requires n > 0
    ensures SensorName(n - 1) !in DesiredSensors(n - 1)
    ensures DesiredSensors(n) == DesiredSensors(n - 1) + {SensorName(n - 1)}
    ensures |DesiredSensors(n)| == |DesiredSensors(n - 1)| + 1
  {
    DesiredSensorsMembership(n - 1, n - 1);
    assert DesiredSensors(n) == DesiredSensors(n - 1) + {SensorName(n - 1)};
  }

  /** A configuration for `n` sensors asks for exactly `max(n, 0)` distinct ids. */
  lemma {:induction false} DesiredSensorsCount(n: int)
    ensures |DesiredSensors(n)| == if n <= 0 then 0 else n
    decreases if n <= 0 then 0 else n
  {
    if n <= 0 {
      assert DesiredSensors(n) == {};
    } else {
      DesiredSensorsCount(n - 1);
      DesiredSensorsStep(n);
    }
  }

  /** Every asked-for id starts with `sensor_`; any other id, such as the
      startup check's `test_sensor_0`, is never asked for. */
  lemma OnlySensorNamesDesired(n: int, id: string)
    requires |id| < 7 || id[..7] != "sensor_"
    ensures id !in DesiredSensors(n)
  {
    forall i: nat | i < n
      ensures SensorName(i) != id
    {
      assert SensorName(i)[..7] == "sensor_";
    }
  }

  lemma TestSensorNeverDesired(n: int)
    ensures TestSensorId !in DesiredSensors(n)
  {
    assert TestSensorId[..7][0] == 't' != 's' == "sensor_"[0];
    OnlySensorNamesDesired(n, TestSensorId);
  }

  /** Growing the count keeps every id asked for before. */
  lemma DesiredSensorsGrow(m: int, n: int)
    requires m <= n
    ensures DesiredSensors(m) <= DesiredSensors(n)
  {
  }

  // ---------------------------------------------------------------------------
  // Partitioning and subscriber survival
  // ---------------------------------------------------------------------------

  /** `hash(sensor_id) % 3`. Python's `%` with a positive divisor takes the
      sign of the divisor, as Dafny's does, so the partition is one of 0, 1, 2
      and differs from the hash by a multiple of 3. */
  function Partition(h: int): (p: int)
    ensures 0 <= p < PartitionCount
    ensures (h - p) % PartitionCount == 0
  {
    h % PartitionCount
  }

  /** The subscribers of `subs` that keep their registration through
      broadcast number `k`: those whose push of that broadcast succeeds. */
  function AfterBroadcast(subs: set<nat>, pushOk: (nat, nat) -> bool, k: nat): (s: set<nat>)
    ensures s <= subs
    ensures forall id :: id in subs ==> (id in s <==> pushOk(k, id))
  {
    set id | id in subs && pushOk(k, id)
  }

  /** The subscribers of `subs` still registered after the first `k`
      broadcasts of a tick. */
  function Survivors(subs: set<nat>, pushOk: (nat, nat) -> bool, k: nat): (s: set<nat>)
    ensures s <= subs
    decreases k
  {
    if k == 0 then subs else AfterBroadcast(Survivors(subs, pushOk, k - 1), pushOk, k - 1)
  }

  /** A subscriber survives the first `k` broadcasts exactly when every one of
      its first `k` pushes succeeds. */
  lemma {:induction false} SurvivorsExactly(subs: set<nat>, pushOk: (nat, nat) -> bool, k: nat, id: nat)
    ensures id in Survivors(subs, pushOk, k) <==> id in subs && forall j: nat :: j < k ==> pushOk(j, id)
    decreases k
  {
    if k > 0 {
      SurvivorsExactly(subs, pushOk, k - 1, id);
      if id in subs && forall j: nat :: j < k - 1 ==> pushOk(j, id) {
        if pushOk(k - 1, id) {
          assert forall j: nat :: j < k ==> pushOk(j, id) by {
            forall j: nat | j < k ensures pushOk(j, id) {
              if j < k - 1 { assert j < k - 1; }
            }
          }
        }
      }
    }
  }

  /** A subscriber whose push of broadcast `k` fails receives none of the
      later broadcasts. */
  lemma FailedSubscriberGetsNothingMore(subs: set<nat>, pushOk: (nat, nat) -> bool, k: nat, id: nat, later: nat)
    requires !pushOk(k, id) && k < later
    ensures id !in Survivors(subs, pushOk, later)
  {
    SurvivorsExactly(subs, pushOk, later, id);
  }

  /** The set of registered subscribers only shrinks as broadcasts go on. */
  lemma {:induction false} SurvivorsShrink(subs: set<nat>, pushOk: (nat, nat) -> bool, k: nat, later: nat)
    requires k <= later
    ensures Survivors(subs, pushOk, later) <= Survivors(subs, pushOk, k)
    decreases later
  {
    if k < later {
      SurvivorsShrink(subs, pushOk, k, later - 1);
    }
  }

  /** The ids of the sensors whose readings `records` hold. */
  function SentIds(records: seq<SinkRecord>): set<string>
  {
    if records == [] then {} else SentIds(records[..|records| - 1]) + {records[|records| - 1].value.sensorId}
  }

  /** Every record's sensor is among the sensors sent to. */
  lemma {:induction false} SentIdsMembers(records: seq<SinkRecord>)
    ensures forall i :: 0 <= i < |records| ==> records[i].value.sensorId in SentIds(records)
    ensures |SentIds(records)| <= |records|
  {
    if records != [] {
      SentIdsMembers(records[..|records| - 1]);
    }
  }

  /** Records that reach as many sensors as there are records are for
      pairwise distinct sensors. */
  lemma {:induction false} DistinctSentIds(records: seq<SinkRecord>)
    requires |SentIds(records)| == |records|
    ensures forall i, j :: 0 <= i < j < |records| ==> records[i].value.sensorId != records[j].value.sensorId
  {
    if records != [] {
      var prefix := records[..|records| - 1];
      var last := records[|records| - 1].value.sensorId;
      SentIdsMembers(prefix);
      assert last !in SentIds(prefix) && |SentIds(prefix)| == |prefix|;
      DistinctSentIds(prefix);
      forall i, j | 0 <= i < j < |records|
        ensures records[i].value.sensorId != records[j].value.sensorId
      {
        assert records[i] == prefix[i];
        if j < |prefix| {
          assert records[j] == prefix[j];
        }
      }
    }
  }

  /** `records` holds exactly one record per sensor of `configs`. */
  ghost predicate OneRecordPerSensor(records: seq<SinkRecord>, configs: map<string, SensorConfig>)
  {
    && |records| == |configs|
    && SentIds(records) == configs.Keys
    && forall i, j :: 0 <= i < j < |records| ==> records[i].value.sensorId != records[j].value.sensorId
  }

  /** `rec` is what the sink is sent for its sensor: the reading synthesized
      from that sensor's configuration and anomaly state, on the readings
      topic, at the partition of the hash of its id. */
  ghost predicate RecordFor(rec: SinkRecord, configs: map<string, SensorConfig>, states: map<string, AnomalyState>,
                            startTime: real, draws: string -> ReadingDraws, hash: string -> int)
  {
    var id := rec.value.sensorId;
    && id in configs && id in states
    && configs[id].maintenanceCycle > 0
    && (states[id].active ==> states[id].startTime.Some?)
    && rec == SinkRecord(Topic, Synthesize(id, configs[id], states[id], startTime, false, draws(id)), Partition(hash(id)))
  }

  /** The anomaly states after every sensor has been read once. */
  function ExpireAll(states: map<string, AnomalyState>, draws: string -> ReadingDraws): (r: map<string, AnomalyState>)
    requires forall id :: id in states ==> (states[id].active ==> states[id].startTime.Some?)
    ensures r.Keys == states.Keys
  {
    map id | id in states :: Expire(states[id], draws(id).now)
  }

  /** Broadcast `i` carries reading `i`, and every broadcast `k` reaches
      exactly the subscribers that survive it. */
  ghost predicate ReadingsBroadcast(broadcasts: seq<Delivery>, records: seq<SinkRecord>,
                                    subs: set<nat>, pushOk: (nat, nat) -> bool)
  {
    && |records| <= |broadcasts|
    && (forall i :: 0 <= i < |records| ==> broadcasts[i].message == SensorReading(records[i].value))
    && (forall k :: 0 <= k < |broadcasts| ==> broadcasts[k].recipients == Survivors(subs, pushOk, k + 1))
  }

  /** The records so far: one for each sensor outside `remaining`, no sensor
      twice, each synthesized from the state the tick started in. */
  ghost predicate RecordsProgress(records: seq<SinkRecord>, remaining: set<string>,
                                  configs: map<string, SensorConfig>, states0: map<string, AnomalyState>,
                                  startTime: real, draws: string -> ReadingDraws, hash: string -> int)
  {
    && remaining <= configs.Keys
    && |records| + |remaining| == |configs|
    && SentIds(records) == configs.Keys - remaining
    && (forall i :: 0 <= i < |records| ==> RecordFor(records[i], configs, states0, startTime, draws, hash))
  }

  /** The anomaly states so far: expired where due for the sensors outside
      `remaining`, as the tick found them for the others. */
  ghost predicate StatesProgress(states: map<string, AnomalyState>, remaining: set<string>,
                                 states0: map<string, AnomalyState>, draws: string -> ReadingDraws)
  {
    && (forall id :: id in states0 ==> (states0[id].active ==> states0[id].startTime.Some?))
    && states.Keys == states0.Keys
    && (forall id :: id in states0 ==>
          states[id] == if id in remaining then states0[id] else Expire(states0[id], draws(id).now))
  }

  /** What the loop of a tick has done once the sensors outside `remaining`
      have been handled: one record and one broadcast each, in the order
      handled, and their anomalies expired where due. */
  ghost predicate PublishProgress(records: seq<SinkRecord>, broadcasts: seq<Delivery>, remaining: set<string>,
                                  configs: map<string, SensorConfig>, states0: map<string, AnomalyState>,
                                  states: map<string, AnomalyState>, startTime: real,
                                  draws: string -> ReadingDraws, hash: string -> int,
                                  subs: set<nat>, pushOk: (nat, nat) -> bool)
  {
    && configs.Keys == states0.Keys
    && RecordsProgress(records, remaining, configs, states0, startTime, draws, hash)
    && StatesProgress(states, remaining, states0, draws)
    && |broadcasts| == |records|
    && ReadingsBroadcast(broadcasts, records, subs, pushOk)
  }

  lemma RecordsStep(records: seq<SinkRecord>, remaining: set<string>,
                    configs: map<string, SensorConfig>, states0: map<string, AnomalyState>,
                    startTime: real, draws: string -> ReadingDraws, hash: string -> int, id: string, record: SinkRecord)
    requires RecordsProgress(records, remaining, configs, states0, startTime, draws, hash)
    requires id in remaining && record.value.sensorId == id
    requires RecordFor(record, configs, states0, startTime, draws, hash)
    ensures RecordsProgress(records + [record], remaining - {id}, configs, states0, startTime, draws, hash)
  {
    var records' := records + [record];
    assert records'[..|records|] == records;
    assert SentIds(records') == SentIds(records) + {id};
    assert |remaining - {id}| == |remaining| - 1;
  }

  lemma StatesStep(states: map<string, AnomalyState>, remaining: set<string>,
                   states0: map<string, AnomalyState>, draws: string -> ReadingDraws, id: string)
    requires StatesProgress(states, remaining, states0, draws)
    requires id in remaining && id in states0
    ensures StatesProgress(states[id := Expire(states[id], draws(id).now)], remaining - {id}, states0, draws)
  {
  }

  lemma BroadcastStep(broadcasts: seq<Delivery>, records: seq<SinkRecord>, subs: set<nat>,
                      pushOk: (nat, nat) -> bool, record: SinkRecord, b: Delivery)
    requires |broadcasts| == |records|
    requires ReadingsBroadcast(broadcasts, records, subs, pushOk)
    requires b == Delivery(SensorReading(record.value),
                           AfterBroadcast(Survivors(subs, pushOk, |broadcasts|), pushOk, |broadcasts|))
    ensures ReadingsBroadcast(broadcasts + [b], records + [record], subs, pushOk)
  {
  }

  /** The closing broadcast of the sensor states goes to the subscribers that
      survived every reading broadcast before it and its own push. */
  lemma StatesBroadcastStep(broadcasts: seq<Delivery>, records: seq<SinkRecord>, subs: set<nat>,
                            pushOk: (nat, nat) -> bool, b: Delivery)
    requires ReadingsBroadcast(broadcasts, records, subs, pushOk)
    requires b.recipients == AfterBroadcast(Survivors(subs, pushOk, |broadcasts|), pushOk, |broadcasts|)
    ensures ReadingsBroadcast(broadcasts + [b], records, subs, pushOk)
  {
  }

  /** Handling one more sensor keeps the loop's account. */
  lemma PublishStep(records: seq<SinkRecord>, broadcasts: seq<Delivery>, remaining: set<string>,
                    configs: map<string, SensorConfig>, states0: map<string, AnomalyState>,
                    states: map<string, AnomalyState>, startTime: real,
                    draws: string -> ReadingDraws, hash: string -> int,
                    subs: set<nat>, pushOk: (nat, nat) -> bool,
                    id: string, record: SinkRecord, b: Delivery, states': map<string, AnomalyState>)
    requires PublishProgress(records, broadcasts, remaining, configs, states0, states, startTime, draws, hash, subs, pushOk)
    requires id in remaining
    requires configs[id].maintenanceCycle > 0
    requires record == SinkRecord(Topic, Synthesize(id, configs[id], states[id], startTime, false, draws(id)),
                                  Partition(hash(id)))
    requires states' == states[id := Expire(states[id], draws(id).now)]
    requires b == Delivery(SensorReading(record.value),
                           AfterBroadcast(Survivors(subs, pushOk, |broadcasts|), pushOk, |broadcasts|))
    ensures PublishProgress(records + [record], broadcasts + [b], remaining - {id}, configs, states0, states',
                            startTime, draws, hash, subs, pushOk)
  {
    assert states[id] == states0[id];
    RecordsStep(records, remaining, configs, states0, startTime, draws, hash, id, record);
    StatesStep(states, remaining, states0, draws, id);
    BroadcastStep(broadcasts, records, subs, pushOk, record, b);
  }

  /** When no sensor remains, there is a record for each sensor, and one only. */
  lemma RecordsDone(records: seq<SinkRecord>, configs: map<string, SensorConfig>, states0: map<string, AnomalyState>,
                    startTime: real, draws: string -> ReadingDraws, hash: string -> int)
    requires RecordsProgress(records, {}, configs, states0, startTime, draws, hash)
    ensures OneRecordPerSensor(records, configs)
  {
    DistinctSentIds(records);
  }

  /** When no sensor remains, every anomaly has been expired where due. */
  lemma StatesDone(states: map<string, AnomalyState>, states0: map<string, AnomalyState>, draws: string -> ReadingDraws)
    requires StatesProgress(states, {}, states0, draws)
    ensures states == ExpireAll(states0, draws)
  {
    var expired := ExpireAll(states0, draws);
    assert forall id :: id in expired ==> states[id] == expired[id];
  }

  /** The configurations `add_sensor` draws for the new sensors `ids`. */
  function DrawnConfigs(ids: set<string>, now: real, draws: string -> ConfigDraws): map<string, SensorConfig>
  {
    map id | id in ids :: DrawnConfig(draws(id), now)
  }

  /** The initial, inactive anomaly state of each of the new sensors `ids`. */
  function InitialAnomalies(ids: set<string>): map<string, AnomalyState>
  {
    map id | id in ids :: InitialAnomaly
  }

  /** Removing the surplus and adding what is missing leaves exactly the
      desired sensors. */
  lemma ReconciledKeys(configs: map<string, SensorConfig>, desired: set<string>, now: real, draws: string -> ConfigDraws)
    ensures ((configs - (configs.Keys - desired)) + DrawnConfigs(desired - configs.Keys, now, draws)).Keys == desired
  {
  }

  /** Adding one more sensor extends both maps by its entry. */
  lemma AddOneMore(configs: map<string, SensorConfig>, states: map<string, AnomalyState>, done: set<string>,
                   id: string, now: real, draws: string -> ConfigDraws)
    requires ConfigDrawsInRange(draws(id))
    ensures (configs + DrawnConfigs(done, now, draws))[id := NewConfig(false, draws(id), now)]
         == configs + DrawnConfigs(done + {id}, now, draws)
    ensures (states + InitialAnomalies(done))[id := InitialAnomaly] == states + InitialAnomalies(done + {id})
  {
  }

  // ---------------------------------------------------------------------------
  // The injection endpoint
  // ---------------------------------------------------------------------------

  /** The length of the longest prefix of `ids` whose ids are all known. */
  function KnownPrefix(ids: seq<string>, known: set<string>): (k: nat)
    ensures k <= |ids|
    ensures forall j :: 0 <= j < k ==> ids[j] in known
    ensures k < |ids| ==> ids[k] !in known
  {
    if ids == [] || ids[0] !in known then 0 else 1 + KnownPrefix(ids[1..], known)
  }

  /** The anomaly states after injecting `kind` into each of `ids` in turn,
      the `j`-th injection using draw `draws(j)`. */
  function Injections(states: map<string, AnomalyState>, ids: seq<string>, kind: string,
                      draws: nat -> InjectionDraw): (r: map<string, AnomalyState>)
    ensures states.Keys <= r.Keys
    ensures forall j :: 0 <= j < |ids| ==> ids[j] in r && r[ids[j]].active && r[ids[j]].kind == Some(kind)
  {
    if ids == [] then states
    else Injections(states, ids[..|ids| - 1], kind, draws)[ids[|ids| - 1] := InjectedState(kind, draws(|ids| - 1))]
  }

  /** Injecting into known sensors adds no key. */
  lemma {:induction false} InjectionsKeepKeys(states: map<string, AnomalyState>, ids: seq<string>,
                                              kind: string, draws: nat -> InjectionDraw)
    requires forall j :: 0 <= j < |ids| ==> ids[j] in states
    ensures Injections(states, ids, kind, draws).Keys == states.Keys
  {
    if ids != [] {
      InjectionsKeepKeys(states, ids[..|ids| - 1], kind, draws);
    }
  }

  /** The position of the last occurrence of `id` in `ids`, or -1. */
  function LastIndex(ids: seq<string>, id: string): (k: int)
    ensures -1 <= k < |ids|
    ensures k == -1 <==> id !in ids
    ensures k >= 0 ==> ids[k] == id && forall j :: k < j < |ids| ==> ids[j] != id
  {
    if ids == [] then -1
    else if ids[|ids| - 1] == id then |ids| - 1
    else LastIndex(ids[..|ids| - 1], id)
  }

  /** A sensor no injection names keeps its old state, and is present after
      the injections exactly when it was before. */
  lemma {:induction false} InjectionsUntouched(states: map<string, AnomalyState>, ids: seq<string>,
                                               kind: string, draws: nat -> InjectionDraw, id: string)
    requires id !in ids
    ensures id in Injections(states, ids, kind, draws) <==> id in states
    ensures id in states ==> Injections(states, ids, kind, draws)[id] == states[id]
  {
    if ids != [] {
      var front := ids[..|ids| - 1];
      assert forall j :: 0 <= j < |front| ==> front[j] == ids[j];
      InjectionsUntouched(states, front, kind, draws, id);
    }
  }

  /** A sensor the injections name holds the state of its last injection. */
  lemma {:induction false} InjectionsLatest(states: map<string, AnomalyState>, ids: seq<string>,
                                            kind: string, draws: nat -> InjectionDraw, id: string)
    requires id in ids
    ensures id in Injections(states, ids, kind, draws)
    ensures Injections(states, ids, kind, draws)[id] == InjectedState(kind, draws(LastIndex(ids, id)))
  {
    var front := ids[..|ids| - 1];
    if id != ids[|ids| - 1] {
      assert id in front by {
        var j :| 0 <= j < |ids| && ids[j] == id;
        assert front[j] == id;
      }
      InjectionsLatest(states, front, kind, draws, id);
    }
  }

  /** Every sensor an injection names is left active, with the requested kind. */
  lemma InjectionsActivate(states: map<string, AnomalyState>, ids: seq<string>,
                           kind: string, draws: nat -> InjectionDraw, id: string)
    requires id in ids
    ensures id in Injections(states, ids, kind, draws)
    ensures Injections(states, ids, kind, draws)[id].active
    ensures Injections(states, ids, kind, draws)[id].kind == Some(kind)
  {
    InjectionsLatest(states, ids, kind, draws, id);
  }

  /** The connections of `conns` whose ids are in `ids`. */
  function Restrict(conns: map<nat, Connection>, ids: set<nat>): (r: map<nat, Connection>)
    ensures r.Keys == conns.Keys * ids
    ensures forall id :: id in r ==> r[id] == conns[id]
  {
    map id | id in conns && id in ids :: conns[id]
  }

  /** Restricting twice is restricting to the smaller set of ids. */
  lemma RestrictTwice(conns: map<nat, Connection>, ids: set<nat>, ids': set<nat>)
    requires ids' <= ids
    ensures Restrict(Restrict(conns, ids), ids') == Restrict(conns, ids')
  {
  }

  // ---------------------------------------------------------------------------
  // The engine
  // ---------------------------------------------------------------------------

  class Engine {
    const gen: IndustrialSensorGenerator
    /** Python's `hash` on strings, fixed for the life of the process. */
    const hash: string -> int
    var currentFrequency: Option<real>
    var generationTask: LoopState
    var activeWebsockets: set<nat>
    var websocketInstances: map<nat, Connection>
    var nextWsId: nat
    var startupComplete: bool

    /** The generator is consistent; the subscriber set and the instance map
        have the same ids, all below the next id to hand out. */
    ghost predicate Valid()
      reads this, gen
    {
      && gen.Valid()
      && activeWebsockets == websocketInstances.Keys
      && (forall id :: id in activeWebsockets ==> id < nextWsId)
    }

    constructor (startTime: real, hash: string -> int)
      ensures Valid() && fresh(gen)
      ensures gen.sensorConfigs == map[] && gen.startTime == startTime
      ensures this.hash == hash
      ensures currentFrequency == None && generationTask == NotStarted
      ensures activeWebsockets == {} && websocketInstances == map[] && nextWsId == 0
      ensures !startupComplete
    {
      gen := new IndustrialSensorGenerator(startTime);
      this.hash := hash;
      currentFrequency := None;
      generationTask := NotStarted;
      activeWebsockets := {};
      websocketInstances := map[];
      nextWsId := 0;
      startupComplete := false;
    }

    /** The frequency a tick reads: the configured one, else 1 Hz. */
    function TickFrequency(): (f: real)
      reads this
      ensures currentFrequency == None ==> f == DefaultFrequency
      ensures currentFrequency != None ==> f == currentFrequency.value
    {
      match currentFrequency
      case Some(f) => f
      case None => DefaultFrequency
    }

    // ----- subscribers -----

    /** A new subscriber connects: it gets the next id, which is stored in
        both structures. */
    method Register(conn: Connection) returns (wsId: nat)
      requires Valid()
      modifies this
      ensures Valid()
      ensures wsId == old(nextWsId) && nextWsId == old(nextWsId) + 1
      ensures wsId !in old(activeWebsockets)
      ensures activeWebsockets == old(activeWebsockets) + {wsId}
      ensures websocketInstances == old(websocketInstances)[wsId := conn]
      ensures currentFrequency == old(currentFrequency) && generationTask == old(generationTask)
      ensures startupComplete == old(startupComplete)
    {
      wsId := nextWsId;
      nextWsId := nextWsId + 1;
      activeWebsockets := activeWebsockets + {wsId};
      websocketInstances := websocketInstances[wsId := conn];
    }

    /** A subscriber disconnects: its id leaves both structures; an id that
        is already gone is left alone. */
    method Unregister(wsId: nat)
      requires Valid()
      modifies this
      ensures Valid()
      ensures activeWebsockets == old(activeWebsockets) - {wsId}
      ensures websocketInstances == old(websocketInstances) - {wsId}
      ensures nextWsId == old(nextWsId)
      ensures currentFrequency == old(currentFrequency) && generationTask == old(generationTask)
      ensures startupComplete == old(startupComplete)
    {
      activeWebsockets := activeWebsockets - {wsId};
      websocketInstances := websocketInstances - {wsId};
    }

    /** Pushes `message`, as broadcast number `k` of a tick, to a snapshot of
        the subscribers; each one whose push fails is removed from both
        structures, and the others are still tried. */
    method Broadcast(message: Message, k: nat, pushOk: (nat, nat) -> bool) returns (b: Delivery)
      requires Valid()
      modifies this
      ensures Valid()
      ensures b.message == message
      ensures b.recipients == AfterBroadcast(old(activeWebsockets), pushOk, k)
      ensures activeWebsockets == b.recipients
      ensures websocketInstances == Restrict(old(websocketInstances), b.recipients)
      ensures nextWsId == old(nextWsId)
      ensures currentFrequency == old(currentFrequency) && generationTask == old(generationTask)
      ensures startupComplete == old(startupComplete)
    {
      var snapshot := activeWebsockets;
      var remaining := snapshot;
      var recipients: set<nat> := {};
      while remaining != {}
        invariant remaining <= snapshot
        invariant recipients == AfterBroadcast(snapshot - remaining, pushOk, k)
        invariant activeWebsockets == recipients + remaining
        invariant websocketInstances == Restrict(old(websocketInstances), activeWebsockets)
        invariant Valid()
        invariant nextWsId == old(nextWsId)
        invariant currentFrequency == old(currentFrequency) && generationTask == old(generationTask)
        invariant startupComplete == old(startupComplete)
        decreases remaining
      {
        var id :| id in remaining;
        remaining := remaining - {id};
        if id in websocketInstances {
          if pushOk(k, id) {
            recipients := recipients + {id};
          } else {
            activeWebsockets := activeWebsockets - {id};
            websocketInstances := websocketInstances - {id};
          }
        }
      }
      b := Delivery(message, recipients);
    }

    // ----- configuration -----

    /** Removes each sensor of `ids` from the generator. */
    method RemoveSensors(ids: set<string>)
      requires gen.Valid()
      modifies gen
      ensures gen.Valid()
      ensures gen.sensorConfigs == old(gen.sensorConfigs) - ids
      ensures gen.anomalyStates == old(gen.anomalyStates) - ids
    {
      var toRemove := ids;
      while toRemove != {}
        invariant toRemove <= ids
        invariant gen.Valid()
        invariant gen.sensorConfigs == old(gen.sensorConfigs) - (ids - toRemove)
        invariant gen.anomalyStates == old(gen.anomalyStates) - (ids - toRemove)
        decreases toRemove
      {
        var id :| id in toRemove;
        gen.RemoveSensor(id);
        toRemove := toRemove - {id};
      }
    }

    /** Adds each sensor of `ids` to the generator as a non-test sensor. */
    method AddSensors(ids: set<string>, now: real, draws: string -> ConfigDraws)
      requires gen.Valid()
      requires forall id :: ConfigDrawsInRange(draws(id))
      modifies gen
      ensures gen.Valid()
      ensures gen.sensorConfigs == old(gen.sensorConfigs) + DrawnConfigs(ids, now, draws)
      ensures gen.anomalyStates == old(gen.anomalyStates) + InitialAnomalies(ids)
    {
      var toAdd := ids;
      ghost var done: set<string> := {};
      while toAdd != {}
        invariant toAdd <= ids && done == ids - toAdd
        invariant gen.Valid()
        invariant gen.sensorConfigs == old(gen.sensorConfigs) + DrawnConfigs(done, now, draws)
        invariant gen.anomalyStates == old(gen.anomalyStates) + InitialAnomalies(done)
        decreases toAdd
      {
        var id :| id in toAdd;
        gen.AddSensor(id, false, now, draws(id));
        AddOneMore(old(gen.sensorConfigs), old(gen.anomalyStates), done, id, now, draws);
        toAdd := toAdd - {id};
        done := done + {id};
      }
      assert done == ids;
    }

    /** Brings the generator's sensors to exactly `desired`: removes the
        surplus, adds what is missing and leaves the rest alone. */
    method Reconcile(desired: set<string>, now: real, draws: string -> ConfigDraws)
      returns (removed: set<string>, added: set<string>)
      requires gen.Valid()
      requires forall id :: ConfigDrawsInRange(draws(id))
      modifies gen
      ensures gen.Valid()
      ensures gen.sensorConfigs.Keys == desired
      ensures removed == old(gen.sensorConfigs).Keys - desired
      ensures added == desired - old(gen.sensorConfigs).Keys
      ensures gen.sensorConfigs == (old(gen.sensorConfigs) - removed) + DrawnConfigs(added, now, draws)
      ensures gen.anomalyStates == (old(gen.anomalyStates) - removed) + InitialAnomalies(added)
    {
      var current := gen.sensorConfigs.Keys;
      removed := current - desired;
      added := desired - current;
      RemoveSensors(removed);
      AddSensors(added, now, draws);
      ReconciledKeys(old(gen.sensorConfigs), desired, now, draws);
    }

    /** Sets the frequency, reconciles the sensor population with
        `sensor_0 .. sensor_{n-1}` (removing the surplus, adding what is
        missing, leaving the rest alone) and creates the generation task
        unless it exists. */
    method Configure(numSensors: int, frequencyHz: real, now: real, draws: string -> ConfigDraws)
      returns (removed: set<string>, added: set<string>, started: bool)
      requires Valid()
      requires forall id :: ConfigDrawsInRange(draws(id))
      modifies this, gen
      ensures Valid()
      ensures currentFrequency == Some(frequencyHz)
      ensures gen.sensorConfigs.Keys == DesiredSensors(numSensors)
      ensures removed == old(gen.sensorConfigs).Keys - DesiredSensors(numSensors)
      ensures added == DesiredSensors(numSensors) - old(gen.sensorConfigs).Keys
      ensures gen.sensorConfigs == (old(gen.sensorConfigs) - removed) + DrawnConfigs(added, now, draws)
      ensures gen.anomalyStates == (old(gen.anomalyStates) - removed) + InitialAnomalies(added)
      ensures started <==> old(generationTask) == NotStarted
      ensures generationTask == Running
      ensures activeWebsockets == old(activeWebsockets) && websocketInstances == old(websocketInstances)
      ensures nextWsId == old(nextWsId) && startupComplete == old(startupComplete)
    {
      currentFrequency := Some(frequencyHz);

      removed, added := Reconcile(DesiredSensors(numSensors), now, draws);

      started := generationTask == NotStarted;
      if started {
        generationTask := Running;
      }
    }

    /** Injects `kind` into each of `sensorIds` in order. The first unknown id
        stops the call with an error, and the injections before it stay. */
    method InjectAnomalies(sensorIds: seq<string>, kind: string, draws: nat -> InjectionDraw)
      returns (r: Result<()>)
      requires Valid()
      requires forall j: nat :: InjectionDrawInRange(draws(j))
      modifies gen
      ensures Valid()
      ensures gen.sensorConfigs == old(gen.sensorConfigs)
      ensures var k := KnownPrefix(sensorIds, old(gen.sensorConfigs).Keys);
              && (r == if k == |sensorIds| then Ok(()) else Err(UnknownSensor(sensorIds[k])))
              && gen.anomalyStates == Injections(old(gen.anomalyStates), sensorIds[..k], kind, draws)
    {
      ghost var k := KnownPrefix(sensorIds, gen.sensorConfigs.Keys);
      var i := 0;
      while i < |sensorIds|
        invariant 0 <= i <= k
        invariant gen.Valid()
        invariant gen.sensorConfigs == old(gen.sensorConfigs)
        invariant gen.anomalyStates == Injections(old(gen.anomalyStates), sensorIds[..i], kind, draws)
      {
        r := gen.InjectAnomaly(sensorIds[i], kind, draws(i));
        if r.Err? {
          assert i == k;
          return;
        }
        assert sensorIds[..i + 1][..i] == sensorIds[..i];
        i := i + 1;
      }
      assert i == k == |sensorIds|;
      r := Ok(());
    }

    // ----- one tick of the generation loop -----

    /** The body of the tick's loop for one sensor: reads the sensor, sends
        the reading to its partition and pushes it, as broadcast number `k`,
        to the subscribers. */
    method Publish(sensorId: string, k: nat, d: ReadingDraws, pushOk: (nat, nat) -> bool)
      returns (record: SinkRecord, b: Delivery)
      requires Valid()
      requires sensorId in gen.sensorConfigs
      requires ReadingDrawsInRange(d)
      modifies this, gen
      ensures Valid()
      ensures gen.sensorConfigs == old(gen.sensorConfigs)
      ensures gen.anomalyStates == old(gen.anomalyStates)[sensorId := Expire(old(gen.anomalyStates)[sensorId], d.now)]
      ensures record == SinkRecord(Topic, Synthesize(sensorId, old(gen.sensorConfigs)[sensorId],
                                                     old(gen.anomalyStates)[sensorId], gen.startTime, false, d),
                                   Partition(hash(sensorId)))
      ensures b == Delivery(SensorReading(record.value), AfterBroadcast(old(activeWebsockets), pushOk, k))
      ensures activeWebsockets == b.recipients
      ensures websocketInstances == Restrict(old(websocketInstances), b.recipients)
      ensures nextWsId == old(nextWsId) && currentFrequency == old(currentFrequency)
      ensures generationTask == old(generationTask) && startupComplete == old(startupComplete)
    {
      var r := gen.GenerateReading(sensorId, false, d);
      var reading := r.value;
      record := SinkRecord(Topic, reading, Partition(hash(sensorId)));
      b := Broadcast(SensorReading(reading), k, pushOk);
    }

    /** The loop of a tick over the configured sensors: one reading, one
        sink record and one broadcast per sensor. */
    method PublishAll(draws: string -> ReadingDraws, pushOk: (nat, nat) -> bool)
      returns (records: seq<SinkRecord>, broadcasts: seq<Delivery>)
      requires Valid()
      requires forall id :: ReadingDrawsInRange(draws(id))
      modifies this, gen
      ensures Valid()
      ensures gen.sensorConfigs == old(gen.sensorConfigs)
      ensures PublishProgress(records, broadcasts, {}, old(gen.sensorConfigs), old(gen.anomalyStates),
                              gen.anomalyStates, gen.startTime, draws, hash, old(activeWebsockets), pushOk)
      ensures activeWebsockets == Survivors(old(activeWebsockets), pushOk, |broadcasts|)
      ensures websocketInstances == Restrict(old(websocketInstances), activeWebsockets)
      ensures nextWsId == old(nextWsId) && currentFrequency == old(currentFrequency)
      ensures generationTask == old(generationTask) && startupComplete == old(startupComplete)
    {
      ghost var configs := gen.sensorConfigs;
      ghost var states0 := gen.anomalyStates;
      ghost var subs0 := activeWebsockets;
      var remaining := gen.sensorConfigs.Keys;
      records := [];
      broadcasts := [];
      while remaining != {}
        invariant Valid()
        invariant gen.sensorConfigs == configs
        invariant PublishProgress(records, broadcasts, remaining, configs, states0, gen.anomalyStates,
                                  gen.startTime, draws, hash, subs0, pushOk)
        invariant activeWebsockets == Survivors(subs0, pushOk, |broadcasts|)
        invariant websocketInstances == Restrict(old(websocketInstances), activeWebsockets)
        invariant nextWsId == old(nextWsId) && currentFrequency == old(currentFrequency)
        invariant generationTask == old(generationTask) && startupComplete == old(startupComplete)
        decreases remaining
      {
        var id :| id in remaining;
        ghost var states := gen.anomalyStates;
        ghost var subs := activeWebsockets;
        var record, b := Publish(id, |broadcasts|, draws(id), pushOk);
        RestrictTwice(old(websocketInstances), subs, b.recipients);
        PublishStep(records, broadcasts, remaining, configs, states0, states, gen.startTime, draws, hash,
                    subs0, pushOk, id, record, b, gen.anomalyStates);
        records := records + [record];
        broadcasts := broadcasts + [b];
        remaining := remaining - {id};
      }
    }

    /** The closing broadcast of a tick: the current states of all sensors,
        pushed as broadcast number `k`. */
    method BroadcastStates(k: nat, pushOk: (nat, nat) -> bool) returns (b: Delivery)
      requires Valid()
      modifies this
      ensures Valid()
      ensures b.message == SensorStates(gen.GetSensorStates())
      ensures b.recipients == AfterBroadcast(old(activeWebsockets), pushOk, k)
      ensures activeWebsockets == b.recipients
      ensures websocketInstances == Restrict(old(websocketInstances), b.recipients)
      ensures nextWsId == old(nextWsId) && currentFrequency == old(currentFrequency)
      ensures generationTask == old(generationTask) && startupComplete == old(startupComplete)
    {
      var states := gen.GetSensorStates();
      b := Broadcast(SensorStates(states), k, pushOk);
    }

    /** One pass of the generation loop: reads the frequency, produces one
        reading and one sink record per configured sensor, broadcasts each
        reading, and ends with one broadcast of the sensor states. */
    method Tick(draws: string -> ReadingDraws, pushOk: (nat, nat) -> bool)
      returns (frequency: real, records: seq<SinkRecord>, broadcasts: seq<Delivery>)
      requires Valid()
      requires forall id :: ReadingDrawsInRange(draws(id))
      modifies this, gen
      ensures Valid()
      ensures frequency == old(TickFrequency())
      ensures gen.sensorConfigs == old(gen.sensorConfigs)
      ensures OneRecordPerSensor(records, old(gen.sensorConfigs))
      ensures forall i :: 0 <= i < |records| ==>
                RecordFor(records[i], old(gen.sensorConfigs), old(gen.anomalyStates), gen.startTime, draws, hash)
      ensures gen.anomalyStates == ExpireAll(old(gen.anomalyStates), draws)
      ensures |broadcasts| == |records| + 1
      ensures ReadingsBroadcast(broadcasts, records, old(activeWebsockets), pushOk)
      ensures broadcasts[|records|].message == SensorStates(gen.GetSensorStates())
      ensures activeWebsockets == Survivors(old(activeWebsockets), pushOk, |broadcasts|)
      ensures websocketInstances == Restrict(old(websocketInstances), activeWebsockets)
      ensures nextWsId == old(nextWsId) && currentFrequency == old(currentFrequency)
      ensures generationTask == old(generationTask) && startupComplete == old(startupComplete)
    {
      frequency := TickFrequency();
      ghost var subs0 := activeWebsockets;
      var readings;
      records, readings := PublishAll(draws, pushOk);
      RecordsDone(records, old(gen.sensorConfigs), old(gen.anomalyStates), gen.startTime, draws, hash);
      StatesDone(gen.anomalyStates, old(gen.anomalyStates), draws);
      ghost var subs := activeWebsockets;
      var b := BroadcastStates(|readings|, pushOk);
      RestrictTwice(old(websocketInstances), subs, b.recipients);
      broadcasts := readings + [b];
      StatesBroadcastStep(readings, records, subs0, pushOk, b);
    }

    // ----- startup check -----

    /** The startup check: unless it already succeeded, registers the test
        sensor, reads it, and sends the reading to partition 0; it counts as
        done only when the sink reports success. */
    method Startup(now: real, d: ReadingDraws, sinkOk: bool) returns (sent: Option<SinkRecord>)
      requires Valid()
      requires ReadingDrawsInRange(d)
      modifies this, gen
      ensures Valid()
      ensures old(startupComplete) ==>
                && sent == None && startupComplete
                && gen.sensorConfigs == old(gen.sensorConfigs) && gen.anomalyStates == old(gen.anomalyStates)
      ensures !old(startupComplete) ==>
                && sent == Some(SinkRecord(Topic, Synthesize(TestSensorId, TestConfig(now), InitialAnomaly,
                                                             gen.startTime, true, d), 0))
                && startupComplete == sinkOk
                && gen.sensorConfigs == old(gen.sensorConfigs)[TestSensorId := TestConfig(now)]
                && gen.anomalyStates == old(gen.anomalyStates)[TestSensorId := InitialAnomaly]
      ensures activeWebsockets == old(activeWebsockets) && websocketInstances == old(websocketInstances)
      ensures nextWsId == old(nextWsId) && currentFrequency == old(currentFrequency)
      ensures generationTask == old(generationTask)
    {
      if startupComplete {
        return None;
      }
      gen.AddSensor(TestSensorId, true, now, NoConfigDraws);
      var r := gen.GenerateReading(TestSensorId, true, d);
      sent := Some(SinkRecord(Topic, r.value, 0));
      if sinkOk {
        startupComplete := true;
      }
    }
  }
}
