/** The sensor tables and enumerations (the entities under src/sensor/entities,
    src/sensor/enums/sensor-type.enum.ts, src/sensor/constants/threshold-rules.ts):
    sensor types and the payload fields that carry them, the reason codes of
    each type, configurations with their thresholds, and the alert and
    command log rows. Sensor readings are JavaScript numbers; here they are
    integers, or NaN for a field `Number(...)` cannot read. */
module SensorEntities {

  import opened Common
  import opened Strings

  datatype SensorType = WaterPressure | WaterFlow | PumpTemperature | SoilMoisture | ElectricalCurrent

  /** The stored name of a sensor type. */
  function SensorTypeName(t: SensorType): string {
    match t
    case WaterPressure => "water_pressure"
    case WaterFlow => "water_flow"
    case PumpTemperature => "pump_temperature"
    case SoilMoisture => "soil_moisture"
    case ElectricalCurrent => "electrical_current"
  }

  /** Telemetry payload fields and the sensor type each one reports, in the
      order the object literal declares them. */
  const PayloadFields: seq<(string, SensorType)> :=
    [("pressure", WaterPressure), ("flow", WaterFlow), ("temperature", PumpTemperature),
     ("soilMoisture", SoilMoisture), ("current", ElectricalCurrent)]

  /** Each sensor type is reported by exactly one payload field. */
  lemma PayloadFieldsOnePerType(t: SensorType)
    ensures exists i :: 0 <= i < |PayloadFields| && PayloadFields[i].1 == t
    ensures forall i, j :: 0 <= i < j < |PayloadFields| ==> PayloadFields[i].1 != PayloadFields[j].1
  {
    match t
    case WaterPressure => assert PayloadFields[0].1 == t;
    case WaterFlow => assert PayloadFields[1].1 == t;
    case PumpTemperature => assert PayloadFields[2].1 == t;
    case SoilMoisture => assert PayloadFields[3].1 == t;
    case ElectricalCurrent => assert PayloadFields[4].1 == t;
  }

  datatype Direction = Below | Above

  /** The stored name of an alert direction. */
  function DirectionName(d: Direction): string {
    match d
    case Below => "below"
    case Above => "above"
  }

  /** The reason code of an alert, by sensor type and direction. */
  function Reason(t: SensorType, d: Direction): string {
    match (t, d)
    case (SoilMoisture, Below) => "LOW_MOISTURE"
    case (SoilMoisture, Above) => "HIGH_MOISTURE"
    case (PumpTemperature, Below) => "LOW_TEMPERATURE"
    case (PumpTemperature, Above) => "OVER_TEMPERATURE"
    case (WaterPressure, Below) => "LOW_PRESSURE"
    case (WaterPressure, Above) => "HIGH_PRESSURE"
    case (WaterFlow, Below) => "LOW_FLOW"
    case (WaterFlow, Above) => "HIGH_FLOW"
    case (ElectricalCurrent, Below) => "LOW_CURRENT"
    case (ElectricalCurrent, Above) => "OVERCURRENT"
  }

  datatype ThresholdLevel = Critical | Warning

  function LevelName(l: ThresholdLevel): string {
    match l
    case Critical => "CRITICAL"
    case Warning => "WARNING"
  }

  datatype SensorMode = Auto | Manual

  /** A `Number(...)` result: an integer or NaN. */
  datatype Number = Num(n: int) | NaN

  /** A `sensor_threshold` row: an optional lower and upper bound and the
      command to dispatch when one is crossed. */
  datatype Threshold = Threshold(id: string, level: ThresholdLevel, minThreshold: Option<int>,
                                 maxThreshold: Option<int>, action: string)

  /** A `sensor_config` row with its thresholds. */
  datatype SensorConfig = SensorConfig(id: string, deviceId: string, sensorType: SensorType, enabled: bool,
                                       mode: SensorMode, thresholds: seq<Threshold>)

  /** The unique key (configuration, level): at most one threshold per level. */
  predicate LevelsUnique(ths: seq<Threshold>) {
    forall i, j :: 0 <= i < j < |ths| ==> ths[i].level != ths[j].level
  }

  /** An `alert_log` row. */
  datatype AlertLog = AlertLog(id: string, deviceId: string, sensorType: SensorType, value: int, threshold: int,
                               level: ThresholdLevel, direction: Direction, action: string, reason: string,
                               acknowledged: bool)

  datatype CommandSource = ManualSource | Automated

  /** A `command_log` row. */
  datatype CommandLog = CommandLog(deviceId: string, command: string, params: JsonValue, source: CommandSource,
                                   sensorType: Option<string>, reason: Option<string>, success: bool,
                                   errorMessage: Option<string>)

  /** A `sensor_data` row. */
  datatype SensorSample = SensorSample(deviceId: string, sensorType: SensorType, value: Number)
}
