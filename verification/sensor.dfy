/** The sensor service (src/sensor/sensor.service.ts): the telemetry path
    that turns a device payload into readings, stores one sample per reading
    and hands each reading to the threshold engine; the per-device cache of
    sensor configurations; the configuration and threshold CRUD that keeps
    that cache honest; alert acknowledgement and the log of manually sent
    commands.

    The `sensor_config` table with its thresholds is a sequence of rows; the
    alert and command tables are the threshold engine's `Logs`. The clock,
    generated ids, the broker's answers and the ISO timestamp are
    parameters. */
module Sensor {

  import opened Common
  import opened Strings
  import opened SensorEntities
  import ThresholdEngine

  const CacheTtlMs: int := 60000

  // ------------------------------------------------------------ readings

  /** One reading of a telemetry payload. */
  datatype Reading = Reading(sensorType: SensorType, value: Number)

  /** The payload field that reports a sensor type. */
  function FieldName(t: SensorType): string {
    match t
    case WaterPressure => "pressure"
    case WaterFlow => "flow"
    case PumpTemperature => "temperature"
    case SoilMoisture => "soilMoisture"
    case ElectricalCurrent => "current"
  }

  /** The position of a sensor type's field in the payload mapping. */
  function Rank(t: SensorType): (r: nat)
    ensures r < |PayloadFields| && PayloadFields[r] == (FieldName(t), t)
  {
    match t
    case WaterPressure => 0
    case WaterFlow => 1
    case PumpTemperature => 2
    case SoilMoisture => 3
    case ElectricalCurrent => 4
  }

  lemma FieldAt(i: nat)
    requires i < |PayloadFields|
    ensures Rank(PayloadFields[i].1) == i && FieldName(PayloadFields[i].1) == PayloadFields[i].0
  {
  }

  /** `Number(v)` for the JSON values a payload field can hold: numbers and
      booleans convert, the empty string is 0, a string of decimal digits is
      its value; any other string and any object is NaN. */
  function Coerce(v: JsonValue): (n: Number)
    ensures v.JNum? ==> n == Num(v.n)
    ensures v.JObj? ==> n.NaN?
  {
    match v
    case JNull => Num(0)
    case JBool(b) => Num(if b then 1 else 0)
    case JNum(n) => Num(n)
    case JStr(s) => if s == "" then Num(0) else if AllDigits(s) then Num(DecimalValue(s)) else NaN
    case JObj(_) => NaN
  }

  /** `payload[field]` when it is neither undefined nor null. Reading a
      field of a payload that is not an object yields nothing. */
  function Field(payload: JsonValue, field: string): Option<JsonValue> {
    if payload.JObj? && field in payload.fields && payload.fields[field] != JNull then Some(payload.fields[field])
    else None
  }

  /** The reading of one sensor type, when its field is present. */
  predicate Reports(payload: JsonValue, t: SensorType) {
    Field(payload, FieldName(t)).Some?
  }

  /** The readings of the first `n` mapped fields, in mapping order. */
  function ReadingsUpTo(payload: JsonValue, n: nat): (rs: seq<Reading>)
    requires n <= |PayloadFields|
    ensures forall k :: 0 <= k < |rs| ==>
              Rank(rs[k].sensorType) < n && Reports(payload, rs[k].sensorType)
              && rs[k].value == Coerce(Field(payload, FieldName(rs[k].sensorType)).value)
    ensures forall i, j :: 0 <= i < j < |rs| ==> Rank(rs[i].sensorType) < Rank(rs[j].sensorType)
  {
    if n == 0 then []
    else
      var init := ReadingsUpTo(payload, n - 1);
      var t := PayloadFields[n - 1].1;
      FieldAt(n - 1);
      match Field(payload, PayloadFields[n - 1].0)
      case None => init
      case Some(v) => init + [Reading(t, Coerce(v))]
  }

  /** Every present field among the first `n` is read. */
  lemma {:induction false} ReadingsCover(payload: JsonValue, n: nat, t: SensorType)
    requires n <= |PayloadFields| && Rank(t) < n && Reports(payload, t)
    ensures exists k :: 0 <= k < |ReadingsUpTo(payload, n)| && ReadingsUpTo(payload, n)[k].sensorType == t
  {
    var rs := ReadingsUpTo(payload, n);
    var init := ReadingsUpTo(payload, n - 1);
    FieldAt(n - 1);
    if Rank(t) == n - 1 {
      assert PayloadFields[n - 1].1 == t;
      assert rs[|init|].sensorType == t;
    } else {
      ReadingsCover(payload, n - 1, t);
      var k :| 0 <= k < |init| && init[k].sensorType == t;
      assert rs[k] == init[k];
    }
  }

  /** The readings of a payload: one per mapped field that is present. */
  function Readings(payload: JsonValue): seq<Reading> {
    ReadingsUpTo(payload, |PayloadFields|)
  }

  /** The readings are exactly the mapped fields that are present, each
      sensor type at most once, in mapping order, each with its field's
      value; unmapped fields are ignored. */
  lemma {:induction false} ReadingsExactly(payload: JsonValue)
    ensures var rs := Readings(payload);
            (forall t :: (exists k :: 0 <= k < |rs| && rs[k].sensorType == t) <==> Reports(payload, t))
            && (forall i, j :: 0 <= i < j < |rs| ==> Rank(rs[i].sensorType) < Rank(rs[j].sensorType))
            && (forall k :: 0 <= k < |rs| ==> rs[k].value == Coerce(Field(payload, FieldName(rs[k].sensorType)).value))
            && |rs| <= |PayloadFields|
  {
    var rs := Readings(payload);
    forall t ensures (exists k :: 0 <= k < |rs| && rs[k].sensorType == t) <==> Reports(payload, t) {
      if Reports(payload, t) {
        ReadingsCover(payload, |PayloadFields|, t);
      }
    }
    if |rs| > |PayloadFields| {
      RanksBound(rs, |PayloadFields|);
    }
  }

  /** Strictly increasing ranks below `n` number at most `n`. */
  lemma {:induction false} RanksBound(rs: seq<Reading>, n: nat)
    requires forall k :: 0 <= k < |rs| ==> Rank(rs[k].sensorType) < n
    requires forall i, j :: 0 <= i < j < |rs| ==> Rank(rs[i].sensorType) < Rank(rs[j].sensorType)
    ensures |rs| <= n
  {
    if rs != [] {
      var last := Rank(rs[|rs| - 1].sensorType);
      RanksBound(rs[..|rs| - 1], last);
    }
  }

  /** The sample rows of one payload. */
  function SamplesOf(deviceId: string, rs: seq<Reading>): (ss: seq<SensorSample>)
    ensures |ss| == |rs|
    ensures forall k :: 0 <= k < |rs| ==> ss[k] == SensorSample(deviceId, rs[k].sensorType, rs[k].value)
  {
    if rs == [] then [] else [SensorSample(deviceId, rs[0].sensorType, rs[0].value)] + SamplesOf(deviceId, rs[1..])
  }

  // ------------------------------------------------------------ config selection

  /** A configuration that may drive automatic evaluation of `t`. */
  predicate Selectable(c: SensorConfig, t: SensorType) {
    c.sensorType == t && c.enabled && c.mode == Auto
  }

  /** The position of the first selectable configuration for `t`. */
  function FirstSelectable(cfgs: seq<SensorConfig>, t: SensorType): (r: Option<nat>)
    ensures r.Some? ==> r.value < |cfgs| && Selectable(cfgs[r.value], t)
    ensures forall k :: 0 <= k < |cfgs| && (r.None? || k < r.value) ==> !Selectable(cfgs[k], t)
  {
    if cfgs == [] then None
    else if Selectable(cfgs[0], t) then Some(0)
    else match FirstSelectable(cfgs[1..], t)
      case None => None
      case Some(k) => Some(k + 1)
  }

  /** The configuration a reading of `t` is evaluated against: the first
      selectable one, and none when that one has no thresholds. */
  function ConfigFor(cfgs: seq<SensorConfig>, t: SensorType): (c: Option<SensorConfig>)
    ensures c.Some? ==> c.value in cfgs && Selectable(c.value, t) && |c.value.thresholds| > 0
    ensures c.Some? ==> exists k :: 0 <= k < |cfgs| && cfgs[k] == c.value
                                    && forall j :: 0 <= j < k ==> !Selectable(cfgs[j], t)
    ensures c.None? ==> forall k :: 0 <= k < |cfgs| && Selectable(cfgs[k], t) ==>
                          exists j :: 0 <= j <= k && Selectable(cfgs[j], t) && |cfgs[j].thresholds| == 0
  {
    match FirstSelectable(cfgs, t)
    case None => None
    case Some(i) =>
      if |cfgs[i].thresholds| == 0 then
        assert forall k :: 0 <= k < |cfgs| && Selectable(cfgs[k], t) ==> i <= k;
        None
      else
        Some(cfgs[i])
  }

  /** The threshold engine's books after evaluating each reading in turn
      against its configuration; readings without one are skipped. */
  function EvaluateAll(b: ThresholdEngine.Books, deviceId: string, cfgs: seq<SensorConfig>, rs: seq<Reading>, now: int,
                       answerFor: SensorType -> PublishOutcome, alertIdFor: SensorType -> string,
                       stamp: string): (r: ThresholdEngine.Books)
    ensures |b.alerts| <= |r.alerts| <= |b.alerts| + |rs| && r.alerts[..|b.alerts|] == b.alerts
    decreases |rs|
  {
    if rs == [] then b
    else
      var b1 := EvaluateAll(b, deviceId, cfgs, rs[..|rs| - 1], now, answerFor, alertIdFor, stamp);
      var rd := rs[|rs| - 1];
      match ConfigFor(cfgs, rd.sensorType)
      case None => b1
      case Some(c) =>
        var r := ThresholdEngine.Evaluation(b1, deviceId, c, rd.value, now, answerFor(rd.sensorType),
                                            alertIdFor(rd.sensorType), stamp);
        assert r.alerts[..|b.alerts|] == r.alerts[..|b1.alerts|][..|b.alerts|];
        r
  }

  /** The alerts `r` holds beyond those of `b` are for `deviceId` and for
      sensor types among the readings that have a configuration in `cfgs`. */
  ghost predicate AlertsJustified(b: ThresholdEngine.Books, r: ThresholdEngine.Books, deviceId: string,
                                  cfgs: seq<SensorConfig>, rs: seq<Reading>) {
    forall k :: |b.alerts| <= k < |r.alerts| ==>
      r.alerts[k].deviceId == deviceId && ConfigFor(cfgs, r.alerts[k].sensorType).Some?
      && exists j :: 0 <= j < |rs| && rs[j].sensorType == r.alerts[k].sensorType
  }

  /** Every alert the readings raise is for the sending device and for a
      sensor type that was read and has a configuration to be judged by. */
  lemma {:induction false} EvaluateAllAlerts(b: ThresholdEngine.Books, deviceId: string, cfgs: seq<SensorConfig>,
                                             rs: seq<Reading>, now: int, answerFor: SensorType -> PublishOutcome,
                                             alertIdFor: SensorType -> string, stamp: string)
    ensures AlertsJustified(b, EvaluateAll(b, deviceId, cfgs, rs, now, answerFor, alertIdFor, stamp), deviceId, cfgs, rs)
    decreases |rs|
  {
    if rs != [] {
      var init := rs[..|rs| - 1];
      EvaluateAllAlerts(b, deviceId, cfgs, init, now, answerFor, alertIdFor, stamp);
      var b1 := EvaluateAll(b, deviceId, cfgs, init, now, answerFor, alertIdFor, stamp);
      assert AlertsJustified(b, b1, deviceId, cfgs, init);
      var r := EvaluateAll(b, deviceId, cfgs, rs, now, answerFor, alertIdFor, stamp);
      var rd := rs[|rs| - 1];
      forall k | |b.alerts| <= k < |r.alerts|
        ensures r.alerts[k].deviceId == deviceId && ConfigFor(cfgs, r.alerts[k].sensorType).Some?
        ensures exists j :: 0 <= j < |rs| && rs[j].sensorType == r.alerts[k].sensorType
      {
        if k < |b1.alerts| {
          assert r.alerts[k] == r.alerts[..|b1.alerts|][k] == b1.alerts[k];
          var j :| 0 <= j < |init| && init[j].sensorType == b1.alerts[k].sensorType;
          assert rs[j] == init[j];
        } else {
          var c := ConfigFor(cfgs, rd.sensorType).value;
          var d := ThresholdEngine.Decide(b1.anti, deviceId, c, rd.value, now);
          assert d.Fire?;
          assert r.alerts[k] == ThresholdEngine.AlertFor(alertIdFor(rd.sensorType), deviceId, c.sensorType,
                                                         d.threshold, d.violation);
          assert r.alerts[k].sensorType == rd.sensorType && r.alerts[k].deviceId == deviceId;
        }
      }
    }
  }

  // ------------------------------------------------------------ the configuration table

  /** The configurations of one device, in table order. */
  function ConfigsOf(table: seq<SensorConfig>, deviceId: string): (r: seq<SensorConfig>)
    ensures forall c :: c in r <==> c in table && c.deviceId == deviceId
  {
    if table == [] then []
    else
      var init := table[..|table| - 1];
      var last := table[|table| - 1];
      assert table == init + [last];
      ConfigsOf(init, deviceId) + (if last.deviceId == deviceId then [last] else [])
  }

  lemma {:induction false} ConfigsOfAppend(a: seq<SensorConfig>, b: seq<SensorConfig>, deviceId: string)
    ensures ConfigsOf(a + b, deviceId) == ConfigsOf(a, deviceId) + ConfigsOf(b, deviceId)
    decreases |b|
  {
    if b == [] {
      assert a + b == a;
    } else {
      var init := b[..|b| - 1];
      ConfigsOfAppend(a, init, deviceId);
      assert (a + b)[..|a + b| - 1] == a + init;
    }
  }

  /** Rows of other devices never show among a device's configurations. */
  lemma {:induction false} ConfigsOfOthers(rows: seq<SensorConfig>, deviceId: string)
    requires forall k :: 0 <= k < |rows| ==> rows[k].deviceId != deviceId
    ensures ConfigsOf(rows, deviceId) == []
  {
    if rows != [] {
      ConfigsOfOthers(rows[..|rows| - 1], deviceId);
    }
  }

  /** Replacing the row at `i` by rows of the same device (none, to remove
      it) leaves every other device's configurations as they were. */
  lemma {:induction false} SpliceKeepsOthers(table: seq<SensorConfig>, i: nat, rows: seq<SensorConfig>, d: string)
    requires i < |table| && d != table[i].deviceId
    requires forall k :: 0 <= k < |rows| ==> rows[k].deviceId == table[i].deviceId
    ensures ConfigsOf(table[..i] + rows + table[i + 1..], d) == ConfigsOf(table, d)
  {
    assert table == table[..i] + [table[i]] + table[i + 1..];
    ConfigsOfAppend(table[..i] + rows, table[i + 1..], d);
    ConfigsOfAppend(table[..i], rows, d);
    ConfigsOfAppend(table[..i] + [table[i]], table[i + 1..], d);
    ConfigsOfAppend(table[..i], [table[i]], d);
    ConfigsOfOthers(rows, d);
    ConfigsOfOthers([table[i]], d);
  }

  /** The first row whose id is `id` and, when given, whose device is `deviceId`. */
  function ConfigIndex(table: seq<SensorConfig>, id: string, deviceId: Option<string>): (r: Option<nat>)
    ensures r.Some? ==> r.value < |table| && table[r.value].id == id
                        && (deviceId.Some? ==> table[r.value].deviceId == deviceId.value)
    ensures r.None? ==> forall k :: 0 <= k < |table| ==>
                          table[k].id != id || (deviceId.Some? && table[k].deviceId != deviceId.value)
  {
    if table == [] then None
    else if table[0].id == id && (deviceId.None? || table[0].deviceId == deviceId.value) then Some(0)
    else match ConfigIndex(table[1..], id, deviceId)
      case None => None
      case Some(k) => Some(k + 1)
  }

  /** The first threshold of a configuration with id `id`. */
  function ThresholdIndex(ths: seq<Threshold>, id: string): (r: Option<nat>)
    ensures r.Some? ==> r.value < |ths| && ths[r.value].id == id
    ensures r.None? ==> forall k :: 0 <= k < |ths| ==> ths[k].id != id
  {
    if ths == [] then None
    else if ths[0].id == id then Some(0)
    else match ThresholdIndex(ths[1..], id)
      case None => None
      case Some(k) => Some(k + 1)
  }

  /** Another row already holds this device and sensor type (the unique key). */
  predicate TypeTaken(table: seq<SensorConfig>, deviceId: string, t: SensorType, except: string) {
    exists k :: 0 <= k < |table| && table[k].id != except && table[k].deviceId == deviceId && table[k].sensorType == t
  }

  /** Another threshold of the configuration already has this level (the unique key). */
  predicate LevelTaken(ths: seq<Threshold>, l: ThresholdLevel, except: string) {
    exists k :: 0 <= k < |ths| && ths[k].id != except && ths[k].level == l
  }

  /** The unique keys of the two tables. */
  predicate KeysUnique(table: seq<SensorConfig>) {
    (forall i, j :: 0 <= i < j < |table| ==> table[i].id != table[j].id)
    && (forall i, j :: 0 <= i < j < |table| ==>
          table[i].deviceId != table[j].deviceId || table[i].sensorType != table[j].sensorType)
    && (forall i :: 0 <= i < |table| ==> LevelsUnique(table[i].thresholds))
  }

  datatype SensorError = ConfigNotFound | ThresholdNotFound | AlertNotFound | Conflict

  /** The fields of `CreateSensorConfigDto` the table keeps. */
  datatype ConfigInput = ConfigInput(sensorType: SensorType, enabled: Option<bool>, mode: Option<SensorMode>)

  /** `UpdateSensorConfigDto`: each field optional. */
  datatype ConfigPatch = ConfigPatch(sensorType: Option<SensorType>, enabled: Option<bool>, mode: Option<SensorMode>)

  /** The row `createConfig` stores: enabled and AUTO unless given. */
  function NewConfig(id: string, deviceId: string, dto: ConfigInput): (c: SensorConfig)
    ensures c.enabled == (dto.enabled != Some(false)) && (c.mode == Manual <==> dto.mode == Some(Manual))
    ensures c.thresholds == [] && c.deviceId == deviceId && c.sensorType == dto.sensorType
  {
    SensorConfig(id, deviceId, dto.sensorType, if dto.enabled.Some? then dto.enabled.value else true,
                 if dto.mode.Some? then dto.mode.value else Auto, [])
  }

  /** `Object.assign(config, dto)`: given fields replace, absent ones stay. */
  function Patched(c: SensorConfig, p: ConfigPatch): (r: SensorConfig)
    ensures r.id == c.id && r.deviceId == c.deviceId && r.thresholds == c.thresholds
    ensures r.sensorType == (if p.sensorType.Some? then p.sensorType.value else c.sensorType)
    ensures r.enabled == (if p.enabled.Some? then p.enabled.value else c.enabled)
    ensures r.mode == (if p.mode.Some? then p.mode.value else c.mode)
  {
    c.(sensorType := if p.sensorType.Some? then p.sensorType.value else c.sensorType,
       enabled := if p.enabled.Some? then p.enabled.value else c.enabled,
       mode := if p.mode.Some? then p.mode.value else c.mode)
  }

  /** Which bound a new threshold sets. */
  datatype BoundKind = LowerBound | UpperBound

  /** `CreateSensorThresholdDto`: a level, a bound kind, the bound and the action. */
  datatype ThresholdInput = ThresholdInput(level: ThresholdLevel, kind: BoundKind, bound: int, action: string)

  /** The fields of `UpdateSensorThresholdDto` the table keeps. */
  datatype ThresholdPatch = ThresholdPatch(level: Option<ThresholdLevel>, action: Option<string>)

  /** The row `createThreshold` stores as written: the input's kind and
      bound name no column of the threshold table, so both bounds stay null. */
  function ThresholdRowAsWritten(id: string, dto: ThresholdInput): (th: Threshold)
    ensures th.id == id && th.level == dto.level && th.action == dto.action
    ensures th.minThreshold.None? && th.maxThreshold.None?
  {
    Threshold(id, dto.level, None, None, dto.action)
  }

  /** A threshold created as written is never crossed, whatever the reading. */
  lemma AsWrittenThresholdNeverFires(id: string, dto: ThresholdInput, value: Number)
    ensures ThresholdEngine.Check(ThresholdRowAsWritten(id, dto), value).None?
  {
  }

  /** The row `createThreshold` is meant to store: the bound goes to the
      column its kind names. */
  function ThresholdRow(id: string, dto: ThresholdInput): (th: Threshold)
    ensures th.id == id && th.level == dto.level && th.action == dto.action
  {
    match dto.kind
    case LowerBound => Threshold(id, dto.level, Some(dto.bound), None, dto.action)
    case UpperBound => Threshold(id, dto.level, None, Some(dto.bound), dto.action)
  }

  /** A threshold created from its input is crossed exactly by the readings
      beyond its bound: below a lower bound, above an upper one. */
  lemma {:induction false} CreatedThresholdFires(id: string, dto: ThresholdInput, value: int)
    ensures var v := ThresholdEngine.Check(ThresholdRow(id, dto), Num(value));
            v.Some? <==> (if dto.kind == LowerBound then value < dto.bound else value > dto.bound)
    ensures var v := ThresholdEngine.Check(ThresholdRow(id, dto), Num(value));
            v.Some? ==> v.value.bound == dto.bound
                        && v.value.direction == (if dto.kind == LowerBound then Below else Above)
  {
    var th := ThresholdRow(id, dto);
    if dto.kind == LowerBound {
      assert th.maxThreshold.None? && th.minThreshold == Some(dto.bound);
    } else {
      assert th.minThreshold.None? && th.maxThreshold == Some(dto.bound);
    }
  }

  /** `Object.assign(threshold, dto)` on the kept fields. */
  function PatchedThreshold(th: Threshold, p: ThresholdPatch): (r: Threshold)
    ensures r.id == th.id && r.minThreshold == th.minThreshold && r.maxThreshold == th.maxThreshold
    ensures r.level == (if p.level.Some? then p.level.value else th.level)
    ensures r.action == (if p.action.Some? then p.action.value else th.action)
  {
    th.(level := if p.level.Some? then p.level.value else th.level,
        action := if p.action.Some? then p.action.value else th.action)
  }

  /** The cache entry of one device. */
  datatype CacheEntry = CacheEntry(configs: seq<SensorConfig>, loadedAt: int)

  /** A cache hit: an entry younger than the time to live. */
  predicate CacheHit(cache: map<string, CacheEntry>, deviceId: string, now: int)
    ensures deviceId in cache && now == cache[deviceId].loadedAt ==> CacheHit(cache, deviceId, now)
    ensures deviceId in cache && now >= cache[deviceId].loadedAt + CacheTtlMs ==> !CacheHit(cache, deviceId, now)
    ensures deviceId !in cache ==> !CacheHit(cache, deviceId, now)
  {
    deviceId in cache && now - cache[deviceId].loadedAt < CacheTtlMs
  }

  /** `command.dispatched`: a command a user sent by hand. */
  datatype DispatchedEvent = DispatchedEvent(deviceId: string, command: string, params: JsonValue, success: bool,
                                             errorMessage: Option<string>)

  /** The command row of a manual command. */
  function ManualLog(e: DispatchedEvent): (log: CommandLog)
    ensures log.source == ManualSource && log.sensorType.None? && log.reason.None?
    ensures log.deviceId == e.deviceId && log.command == e.command && log.params == e.params
    ensures log.success == e.success && log.errorMessage == e.errorMessage
  {
    CommandLog(e.deviceId, e.command, e.params, ManualSource, None, None, e.success, e.errorMessage)
  }

  /** The first alert with this id and device. */
  function AlertIndex(alerts: seq<AlertLog>, deviceId: string, id: string): (r: Option<nat>)
    ensures r.Some? ==> r.value < |alerts| && alerts[r.value].id == id && alerts[r.value].deviceId == deviceId
    ensures r.None? ==> forall k :: 0 <= k < |alerts| ==> alerts[k].id != id || alerts[k].deviceId != deviceId
  {
    if alerts == [] then None
    else if alerts[0].id == id && alerts[0].deviceId == deviceId then Some(0)
    else match AlertIndex(alerts[1..], deviceId, id)
      case None => None
      case Some(k) => Some(k + 1)
  }

  // ------------------------------------------------------------ the service

  class SensorService {
    /** The `sensor_config` rows with their thresholds. */
    var configs: seq<SensorConfig>
    /** `configCache`. */
    var cache: map<string, CacheEntry>
    /** The `sensor_data` rows. */
    var samples: seq<SensorSample>
    const engine: ThresholdEngine.ThresholdService

    constructor(engine: ThresholdEngine.ThresholdService)
      ensures configs == [] && cache == map[] && samples == [] && this.engine == engine
    {
      configs := [];
      cache := map[];
      samples := [];
      this.engine := engine;
    }

    /** Every cache entry holds its device's current configurations. */
    ghost predicate Coherent()
      reads this
    {
      forall d :: d in cache ==> cache[d].configs == ConfigsOf(configs, d)
    }

    /** `invalidateCache`: only this device's entry goes. */
    method InvalidateCache(deviceId: string)
      modifies this
      ensures cache == old(cache) - {deviceId}
      ensures configs == old(configs) && samples == old(samples)
    {
      cache := cache - {deviceId};
    }

    /** `getConfigsForDevice`: a fresh entry answers without loading; a
        missing or stale one is replaced by the rows as they are now. */
    method GetConfigsForDevice(deviceId: string, now: int) returns (cfgs: seq<SensorConfig>)
      modifies this
      ensures CacheHit(old(cache), deviceId, now) ==> cfgs == old(cache)[deviceId].configs && cache == old(cache)
      ensures !CacheHit(old(cache), deviceId, now) ==>
                cfgs == ConfigsOf(configs, deviceId)
                && cache == old(cache)[deviceId := CacheEntry(ConfigsOf(configs, deviceId), now)]
      ensures old(Coherent()) ==> Coherent() && cfgs == ConfigsOf(configs, deviceId)
      ensures configs == old(configs) && samples == old(samples)
    {
      if deviceId in cache && now - cache[deviceId].loadedAt < CacheTtlMs {
        return cache[deviceId].configs;
      }
      cfgs := ConfigsOf(configs, deviceId);
      cache := cache[deviceId := CacheEntry(cfgs, now)];
    }

    /** `processTelemetry`. */
    method ProcessTelemetry(deviceId: string, payload: JsonValue, now: int,
                            answerFor: SensorType -> PublishOutcome, alertIdFor: SensorType -> string, stamp: string)
      modifies this, engine, engine.logs, engine.mqtt, engine.gateway
      ensures Readings(payload) == [] ==>
                samples == old(samples) && cache == old(cache) && engine.Snapshot() == old(engine.Snapshot())
      ensures Readings(payload) != [] ==>
                samples == old(samples) + SamplesOf(deviceId, Readings(payload))
                && cache == (if CacheHit(old(cache), deviceId, now) then old(cache)
                             else old(cache)[deviceId := CacheEntry(ConfigsOf(configs, deviceId), now)])
      ensures Readings(payload) != [] ==>
                var cfgs := if CacheHit(old(cache), deviceId, now) then old(cache)[deviceId].configs
                            else ConfigsOf(configs, deviceId);
                engine.Snapshot() == EvaluateAll(old(engine.Snapshot()), deviceId, cfgs, Readings(payload), now,
                                                 answerFor, alertIdFor, stamp)
      ensures configs == old(configs)
      ensures engine.mqtt.registry == old(engine.mqtt.registry)
      ensures engine.gateway.clients == old(engine.gateway.clients)
    {
      var readings := ExtractReadings(payload);
      if |readings| == 0 {
        return;
      }
      samples := samples + SamplesOf(deviceId, readings);
      var cfgs := GetConfigsForDevice(deviceId, now);
      EvaluateReadings(deviceId, cfgs, readings, now, answerFor, alertIdFor, stamp);
    }

    /** The evaluation loop of `processTelemetry`. */
    method EvaluateReadings(deviceId: string, cfgs: seq<SensorConfig>, readings: seq<Reading>, now: int,
                            answerFor: SensorType -> PublishOutcome, alertIdFor: SensorType -> string, stamp: string)
      modifies engine, engine.logs, engine.mqtt, engine.gateway
      ensures engine.Snapshot() == EvaluateAll(old(engine.Snapshot()), deviceId, cfgs, readings, now,
                                               answerFor, alertIdFor, stamp)
      ensures engine.mqtt.registry == old(engine.mqtt.registry)
      ensures engine.gateway.clients == old(engine.gateway.clients)
    {
      ghost var start := engine.Snapshot();
      for i := 0 to |readings|
        invariant engine.Snapshot() == EvaluateAll(start, deviceId, cfgs, readings[..i], now, answerFor, alertIdFor, stamp)
        invariant engine.mqtt.registry == old(engine.mqtt.registry)
        invariant engine.gateway.clients == old(engine.gateway.clients)
      {
        assert readings[..i + 1][..i] == readings[..i];
        var reading := readings[i];
        var config := ConfigFor(cfgs, reading.sensorType);
        if config.None? {
          continue;
        }
        engine.Evaluate(deviceId, config.value, reading.value, now, answerFor(reading.sensorType),
                        alertIdFor(reading.sensorType), stamp);
      }
      assert readings[..|readings|] == readings;
    }

    /** The reading loop of `processTelemetry`. */
    static method ExtractReadings(payload: JsonValue) returns (rs: seq<Reading>)
      ensures rs == Readings(payload)
    {
      rs := [];
      for i := 0 to |PayloadFields|
        invariant rs == ReadingsUpTo(payload, i)
      {
        var (field, t) := PayloadFields[i];
        var v := Field(payload, field);
        if v.Some? {
          rs := rs + [Reading(t, Coerce(v.value))];
        }
      }
    }

    /** `createConfig`. */
    method CreateConfig(deviceId: string, dto: ConfigInput, newId: string) returns (r: Result<SensorConfig, SensorError>)
      requires forall k :: 0 <= k < |configs| ==> configs[k].id != newId
      modifies this
      ensures TypeTaken(old(configs), deviceId, dto.sensorType, newId) ==>
                r == Err(Conflict) && configs == old(configs) && cache == old(cache)
      ensures !TypeTaken(old(configs), deviceId, dto.sensorType, newId) ==>
                r == Ok(NewConfig(newId, deviceId, dto)) && configs == old(configs) + [r.value]
                && cache == old(cache) - {deviceId}
      ensures samples == old(samples)
      ensures old(Coherent()) ==> Coherent()
      ensures old(KeysUnique(configs)) ==> KeysUnique(configs)
    {
      if exists k :: 0 <= k < |configs| && configs[k].id != newId && configs[k].deviceId == deviceId
                     && configs[k].sensorType == dto.sensorType {
        return Err(Conflict);
      }
      var row := NewConfig(newId, deviceId, dto);
      ghost var before := configs;
      configs := configs + [row];
      InvalidateCache(deviceId);
      forall d | d in cache ensures cache[d].configs == ConfigsOf(configs, d) || !old(Coherent()) {
        ConfigsOfAppend(before, [row], d);
      }
      return Ok(row);
    }

    /** `updateConfig`. */
    method UpdateConfig(deviceId: string, id: string, patch: ConfigPatch) returns (r: Result<SensorConfig, SensorError>)
      modifies this
      ensures var at := ConfigIndex(old(configs), id, Some(deviceId));
              at.None? ==> r == Err(ConfigNotFound) && configs == old(configs) && cache == old(cache)
      ensures var at := ConfigIndex(old(configs), id, Some(deviceId));
              at.Some? && TypeTaken(old(configs), deviceId, Patched(old(configs)[at.value], patch).sensorType, id) ==>
                r == Err(Conflict) && configs == old(configs) && cache == old(cache)
      ensures var at := ConfigIndex(old(configs), id, Some(deviceId));
              at.Some? && !TypeTaken(old(configs), deviceId, Patched(old(configs)[at.value], patch).sensorType, id) ==>
                r == Ok(Patched(old(configs)[at.value], patch)) && configs == old(configs)[at.value := r.value]
                && cache == old(cache) - {deviceId}
      ensures samples == old(samples)
      ensures old(Coherent()) ==> Coherent()
    {
      var at := ConfigIndex(configs, id, Some(deviceId));
      if at.None? {
        return Err(ConfigNotFound);
      }
      var row := Patched(configs[at.value], patch);
      if exists k :: 0 <= k < |configs| && configs[k].id != id && configs[k].deviceId == deviceId
                     && configs[k].sensorType == row.sensorType {
        return Err(Conflict);
      }
      ghost var before := configs;
      configs := configs[at.value := row];
      InvalidateCache(deviceId);
      forall d | d in cache ensures cache[d].configs == ConfigsOf(configs, d) || !old(Coherent()) {
        assert configs == before[..at.value] + [row] + before[at.value + 1..];
        SpliceKeepsOthers(before, at.value, [row], d);
      }
      return Ok(row);
    }

    /** `removeConfig`: the row goes with its thresholds. */
    method RemoveConfig(deviceId: string, id: string) returns (r: Result<(), SensorError>)
      modifies this
      ensures var at := ConfigIndex(old(configs), id, Some(deviceId));
              at.None? ==> r == Err(ConfigNotFound) && configs == old(configs) && cache == old(cache)
      ensures var at := ConfigIndex(old(configs), id, Some(deviceId));
              at.Some? ==> r == Ok(()) && configs == old(configs)[..at.value] + old(configs)[at.value + 1..]
                           && cache == old(cache) - {deviceId}
      ensures samples == old(samples)
      ensures old(Coherent()) ==> Coherent()
    {
      var at := ConfigIndex(configs, id, Some(deviceId));
      if at.None? {
        return Err(ConfigNotFound);
      }
      ghost var before := configs;
      configs := configs[..at.value] + configs[at.value + 1..];
      InvalidateCache(deviceId);
      forall d | d in cache ensures cache[d].configs == ConfigsOf(configs, d) || !old(Coherent()) {
        assert configs == before[..at.value] + [] + before[at.value + 1..];
        SpliceKeepsOthers(before, at.value, [], d);
      }
      return Ok(());
    }

    /** Replace the thresholds of the row at `at` and drop its device's
        cache entry. */
    method StoreThresholds(at: nat, ths: seq<Threshold>)
      requires at < |configs|
      modifies this
      ensures configs == old(configs)[at := old(configs)[at].(thresholds := ths)]
      ensures cache == old(cache) - {old(configs)[at].deviceId}
      ensures samples == old(samples)
      ensures old(Coherent()) ==> Coherent()
    {
      ghost var before := configs;
      var row := configs[at].(thresholds := ths);
      configs := configs[at := row];
      InvalidateCache(row.deviceId);
      forall d | d in cache ensures cache[d].configs == ConfigsOf(configs, d) || !old(Coherent()) {
        assert configs == before[..at] + [row] + before[at + 1..];
        SpliceKeepsOthers(before, at, [row], d);
      }
    }

    /** `createThreshold`, storing the bound in the column its kind names. */
    method CreateThreshold(configId: string, dto: ThresholdInput, newId: string) returns (r: Result<Threshold, SensorError>)
      modifies this
      ensures var at := ConfigIndex(old(configs), configId, None);
              at.None? ==> r == Err(ConfigNotFound) && configs == old(configs) && cache == old(cache)
      ensures var at := ConfigIndex(old(configs), configId, None);
              at.Some? && LevelTaken(old(configs)[at.value].thresholds, dto.level, newId) ==>
                r == Err(Conflict) && configs == old(configs) && cache == old(cache)
      ensures var at := ConfigIndex(old(configs), configId, None);
              at.Some? && !LevelTaken(old(configs)[at.value].thresholds, dto.level, newId) ==>
                r == Ok(ThresholdRow(newId, dto))
                && configs == old(configs)[at.value := old(configs)[at.value].(thresholds :=
                                            old(configs)[at.value].thresholds + [r.value])]
                && cache == old(cache) - {old(configs)[at.value].deviceId}
      ensures samples == old(samples)
      ensures old(Coherent()) ==> Coherent()
    {
      var at := ConfigIndex(configs, configId, None);
      if at.None? {
        return Err(ConfigNotFound);
      }
      var ths := configs[at.value].thresholds;
      if exists k :: 0 <= k < |ths| && ths[k].id != newId && ths[k].level == dto.level {
        return Err(Conflict);
      }
      var row := ThresholdRow(newId, dto);
      StoreThresholds(at.value, ths + [row]);
      return Ok(row);
    }

    /** `updateThreshold`. */
    method UpdateThreshold(configId: string, id: string, patch: ThresholdPatch) returns (r: Result<Threshold, SensorError>)
      modifies this
      ensures var at := ConfigIndex(old(configs), configId, None);
              var ti := if at.Some? then ThresholdIndex(old(configs)[at.value].thresholds, id) else None;
              ti.None? ==> r == Err(ThresholdNotFound) && configs == old(configs) && cache == old(cache)
      ensures var at := ConfigIndex(old(configs), configId, None);
              var ti := if at.Some? then ThresholdIndex(old(configs)[at.value].thresholds, id) else None;
              ti.Some? ==>
                var ths := old(configs)[at.value].thresholds;
                var row := PatchedThreshold(ths[ti.value], patch);
                if LevelTaken(ths, row.level, id) then
                  r == Err(Conflict) && configs == old(configs) && cache == old(cache)
                else
                  r == Ok(row) && configs == old(configs)[at.value := old(configs)[at.value].(thresholds :=
                                                          ths[ti.value := row])]
                  && cache == old(cache) - {old(configs)[at.value].deviceId}
      ensures samples == old(samples)
      ensures old(Coherent()) ==> Coherent()
    {
      var at := ConfigIndex(configs, configId, None);
      if at.None? {
        return Err(ThresholdNotFound);
      }
      var ths := configs[at.value].thresholds;
      var ti := ThresholdIndex(ths, id);
      if ti.None? {
        return Err(ThresholdNotFound);
      }
      var row := PatchedThreshold(ths[ti.value], patch);
      if exists k :: 0 <= k < |ths| && ths[k].id != id && ths[k].level == row.level {
        return Err(Conflict);
      }
      StoreThresholds(at.value, ths[ti.value := row]);
      return Ok(row);
    }

    /** `removeThreshold`. */
    method RemoveThreshold(configId: string, id: string) returns (r: Result<(), SensorError>)
      modifies this
      ensures var at := ConfigIndex(old(configs), configId, None);
              var ti := if at.Some? then ThresholdIndex(old(configs)[at.value].thresholds, id) else None;
              ti.None? ==> r == Err(ThresholdNotFound) && configs == old(configs) && cache == old(cache)
      ensures var at := ConfigIndex(old(configs), configId, None);
              var ti := if at.Some? then ThresholdIndex(old(configs)[at.value].thresholds, id) else None;
              ti.Some? ==>
                var ths := old(configs)[at.value].thresholds;
                r == Ok(()) && configs == old(configs)[at.value := old(configs)[at.value].(thresholds :=
                                                       ths[..ti.value] + ths[ti.value + 1..])]
                && cache == old(cache) - {old(configs)[at.value].deviceId}
      ensures samples == old(samples)
      ensures old(Coherent()) ==> Coherent()
    {
      var at := ConfigIndex(configs, configId, None);
      if at.None? {
        return Err(ThresholdNotFound);
      }
      var ths := configs[at.value].thresholds;
      var ti := ThresholdIndex(ths, id);
      if ti.None? {
        return Err(ThresholdNotFound);
      }
      StoreThresholds(at.value, ths[..ti.value] + ths[ti.value + 1..]);
      return Ok(());
    }

    /** `acknowledgeAlert`. */
    method AcknowledgeAlert(deviceId: string, id: string) returns (r: Result<AlertLog, SensorError>)
      modifies engine.logs
      ensures var at := AlertIndex(old(engine.logs.alerts), deviceId, id);
              at.None? ==> r == Err(AlertNotFound) && engine.logs.alerts == old(engine.logs.alerts)
      ensures var at := AlertIndex(old(engine.logs.alerts), deviceId, id);
              at.Some? ==> r == Ok(old(engine.logs.alerts)[at.value].(acknowledged := true))
                           && engine.logs.alerts == old(engine.logs.alerts)[at.value := r.value]
      ensures engine.logs.commands == old(engine.logs.commands)
    {
      var at := AlertIndex(engine.logs.alerts, deviceId, id);
      if at.None? {
        return Err(AlertNotFound);
      }
      var alert := engine.logs.alerts[at.value].(acknowledged := true);
      engine.logs.alerts := engine.logs.alerts[at.value := alert];
      return Ok(alert);
    }

    /** `handleCommandDispatched`. */
    method HandleCommandDispatched(e: DispatchedEvent)
      modifies engine.logs
      ensures engine.logs.commands == old(engine.logs.commands) + [ManualLog(e)]
      ensures engine.logs.alerts == old(engine.logs.alerts)
    {
      engine.logs.commands := engine.logs.commands + [ManualLog(e)];
    }
  }

  // ------------------------------------------------------------ properties

  /** With a coherent cache, the configurations a reading is judged by are
      the device's current rows, whether the cache answered or not. */
  lemma CoherentCacheIsTransparent(cache: map<string, CacheEntry>, table: seq<SensorConfig>, deviceId: string,
                                   now: int)
    requires forall d :: d in cache ==> cache[d].configs == ConfigsOf(table, d)
    ensures (if CacheHit(cache, deviceId, now) then cache[deviceId].configs else ConfigsOf(table, deviceId))
            == ConfigsOf(table, deviceId)
  {
  }

  /** One telemetry message raises at most one alert per reading, each for
      the sending device, and only for sensor types that reported and have a
      configuration to be judged by. */
  lemma {:induction false} TelemetryAlertsBounded(b: ThresholdEngine.Books, deviceId: string, cfgs: seq<SensorConfig>,
                                                  payload: JsonValue, now: int,
                                                  answerFor: SensorType -> PublishOutcome,
                                                  alertIdFor: SensorType -> string, stamp: string)
    ensures var r := EvaluateAll(b, deviceId, cfgs, Readings(payload), now, answerFor, alertIdFor, stamp);
            |r.alerts| <= |b.alerts| + |PayloadFields|
            && forall k :: |b.alerts| <= k < |r.alerts| ==>
                 r.alerts[k].deviceId == deviceId && Reports(payload, r.alerts[k].sensorType)
                 && ConfigFor(cfgs, r.alerts[k].sensorType).Some?
  {
    var rs := Readings(payload);
    ReadingsExactly(payload);
    EvaluateAllAlerts(b, deviceId, cfgs, rs, now, answerFor, alertIdFor, stamp);
    var r := EvaluateAll(b, deviceId, cfgs, rs, now, answerFor, alertIdFor, stamp);
    assert AlertsJustified(b, r, deviceId, cfgs, rs);
    forall k | |b.alerts| <= k < |r.alerts| ensures Reports(payload, r.alerts[k].sensorType) {
      var j :| 0 <= j < |rs| && rs[j].sensorType == r.alerts[k].sensorType;
    }
  }
}
