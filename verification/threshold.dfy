/** The threshold engine (src/sensor/threshold.service.ts): one reading is
    checked against its sensor's thresholds, critical first; the first
    violated threshold raises an alert and, unless it is `ALERT_ONLY`,
    dispatches its action as a device command. Repeats are suppressed by a
    latch per (device, action) and a 30-second cooldown per (device, sensor
    type); latches are cleared when a reading violates no threshold.

    The engine's state and its observable output (alert and command rows,
    broker publications, socket emits) are gathered in `Books`; each call is
    specified by `Evaluation`, a function from the books before the call to
    the books after it. The clock, the broker's answer, the alert row's
    generated id and the ISO timestamp are parameters. */
module ThresholdEngine {

  import opened Common
  import opened Strings
  import opened SensorEntities
  import Mqtt
  import Gateway

  const CooldownMs: int := 30000

  /** The action that raises an alert without commanding the device. */
  const AlertOnly: string := "ALERT_ONLY"

  /** The cooldown key `{deviceId}:{sensorType}`. */
  function CooldownKey(deviceId: string, t: SensorType): string {
    deviceId + ":" + SensorTypeName(t)
  }

  // ------------------------------------------------------------ violations

  /** A crossed bound: the direction, the bound and the reading. */
  datatype Violation = Violation(direction: Direction, bound: int, reading: int)

  /** Whether `value` crosses `th`: the lower bound is looked at first. */
  function Check(th: Threshold, value: Number): (v: Option<Violation>)
    ensures v.Some? ==> value == Num(v.value.reading)
    ensures v.Some? && v.value.direction == Below ==>
              th.minThreshold == Some(v.value.bound) && v.value.reading < v.value.bound
    ensures v.Some? && v.value.direction == Above ==>
              th.maxThreshold == Some(v.value.bound) && v.value.reading > v.value.bound
    ensures value.Num? && th.minThreshold.Some? && value.n < th.minThreshold.value ==>
              v.Some? && v.value.direction == Below
    ensures v.None? <==>
              value.NaN? || ((th.minThreshold.None? || value.n >= th.minThreshold.value)
                             && (th.maxThreshold.None? || value.n <= th.maxThreshold.value))
  {
    if value.NaN? then None
    else if th.minThreshold.Some? && value.n < th.minThreshold.value then
      Some(Violation(Below, th.minThreshold.value, value.n))
    else if th.maxThreshold.Some? && value.n > th.maxThreshold.value then
      Some(Violation(Above, th.maxThreshold.value, value.n))
    else None
  }

  /** The thresholds of one level, in their stored order. */
  function OfLevel(ths: seq<Threshold>, l: ThresholdLevel): (r: seq<Threshold>)
    ensures forall k :: 0 <= k < |r| ==> r[k].level == l
  {
    if ths == [] then []
    else if ths[0].level == l then [ths[0]] + OfLevel(ths[1..], l)
    else OfLevel(ths[1..], l)
  }

  lemma {:induction false} OfLevelPartition(ths: seq<Threshold>)
    ensures multiset(OfLevel(ths, Critical)) + multiset(OfLevel(ths, Warning)) == multiset(ths)
  {
    if ths != [] {
      OfLevelPartition(ths[1..]);
      assert ths == [ths[0]] + ths[1..];
    }
  }

  /** The order the sort comparator gives: critical thresholds before
      warning ones. With unique levels this is the only order it can give. */
  function CriticalFirst(ths: seq<Threshold>): (r: seq<Threshold>)
    ensures multiset(r) == multiset(ths)
    ensures forall i, j :: 0 <= i < j < |r| && r[i].level == Warning ==> r[j].level == Warning
  {
    OfLevelPartition(ths);
    var c := OfLevel(ths, Critical);
    var w := OfLevel(ths, Warning);
    assert forall k :: 0 <= k < |c + w| ==> (c + w)[k].level == (if k < |c| then Critical else Warning);
    c + w
  }

  /** The position of the first threshold `value` crosses. */
  function FirstViolated(ths: seq<Threshold>, value: Number): (r: Option<nat>)
    ensures r.Some? ==> r.value < |ths| && Check(ths[r.value], value).Some?
    ensures forall k :: 0 <= k < |ths| && (r.None? || k < r.value) ==> Check(ths[k], value).None?
  {
    if ths == [] then None
    else if Check(ths[0], value).Some? then Some(0)
    else match FirstViolated(ths[1..], value)
      case None => None
      case Some(k) => Some(k + 1)
  }

  // ------------------------------------------------------------ anti-spam

  /** `deviceStates` (the set of latched actions of each device; the source
      stores `true` for a latched action and deletes it to unlatch) and
      `lastActionTime`. */
  datatype AntiSpam = AntiSpam(latches: map<string, set<string>>, lastAction: map<string, int>)

  predicate Latched(s: AntiSpam, deviceId: string, action: string) {
    deviceId in s.latches && action in s.latches[deviceId]
  }

  /** A stored time of 0 is falsy and starts no cooldown. */
  predicate CoolingDown(s: AntiSpam, key: string, now: int)
    ensures key in s.lastAction && s.lastAction[key] != 0 && now == s.lastAction[key] ==> CoolingDown(s, key, now)
    ensures key in s.lastAction && now >= s.lastAction[key] + CooldownMs ==> !CoolingDown(s, key, now)
    ensures key !in s.lastAction || s.lastAction[key] == 0 ==> !CoolingDown(s, key, now)
  {
    key in s.lastAction && s.lastAction[key] != 0 && now - s.lastAction[key] < CooldownMs
  }

  /** What `shouldDispatch` answers. */
  predicate MayDispatch(s: AntiSpam, deviceId: string, t: SensorType, action: string, now: int)
    ensures MayDispatch(s, deviceId, t, action, now) <==>
              action !in LatchesOf(s, deviceId) && !CoolingDown(s, CooldownKey(deviceId, t), now)
  {
    !Latched(s, deviceId, action) && !CoolingDown(s, CooldownKey(deviceId, t), now)
  }

  function LatchesOf(s: AntiSpam, deviceId: string): set<string> {
    if deviceId in s.latches then s.latches[deviceId] else {}
  }

  /** The update `shouldDispatch` makes when it answers yes. */
  function Latch(s: AntiSpam, deviceId: string, t: SensorType, action: string, now: int): (r: AntiSpam)
    ensures Latched(r, deviceId, action)
    ensures forall d, a :: Latched(s, d, a) ==> Latched(r, d, a)
    ensures forall d, a :: Latched(r, d, a) ==> Latched(s, d, a) || (d == deviceId && a == action)
    ensures r.lastAction == s.lastAction[CooldownKey(deviceId, t) := now]
  {
    AntiSpam(s.latches[deviceId := LatchesOf(s, deviceId) + {action}], s.lastAction[CooldownKey(deviceId, t) := now])
  }

  /** The actions named by some threshold. */
  function ActionsOf(ths: seq<Threshold>): (r: set<string>)
    ensures forall a :: a in r <==> exists k :: 0 <= k < |ths| && ths[k].action == a
  {
    if ths == [] then {}
    else
      var r := ActionsOf(ths[..|ths| - 1]) + {ths[|ths| - 1].action};
      assert forall k :: 0 <= k < |ths| - 1 ==> ths[..|ths| - 1][k] == ths[k];
      r
  }

  /** One more threshold adds its action to the actions of the prefix. */
  lemma ActionsOfStep(ths: seq<Threshold>, i: nat)
    requires i < |ths|
    ensures ActionsOf(ths[..i + 1]) == ActionsOf(ths[..i]) + {ths[i].action}
  {
    assert ths[..i + 1][..i] == ths[..i];
  }

  lemma RemoveOneMore<T>(start: set<T>, removed: set<T>, x: T)
    ensures (start - removed) - {x} == start - (removed + {x})
  {
  }

  lemma UpdateTwice<K, V>(m: map<K, V>, k: K, v: V, w: V)
    ensures m[k := v][k := w] == m[k := w]
  {
  }

  /** `clearStatesForSensor`: the listed actions are unlatched for this
      device; other devices, other actions and every cooldown stay. */
  function Clear(s: AntiSpam, deviceId: string, actions: set<string>): (r: AntiSpam)
    ensures r.lastAction == s.lastAction
    ensures forall d, a :: Latched(r, d, a) <==> Latched(s, d, a) && !(d == deviceId && a in actions)
  {
    if deviceId !in s.latches then s
    else s.(latches := s.latches[deviceId := s.latches[deviceId] - actions])
  }

  // ------------------------------------------------------------ one evaluation

  /** What an evaluation does: nothing is violated; the first violated
      threshold is held back by the anti-spam state; or it fires. */
  datatype Decision =
    | Quiet
    | Blocked(threshold: Threshold)
    | Fire(threshold: Threshold, violation: Violation)

  function Decide(s: AntiSpam, deviceId: string, config: SensorConfig, value: Number, now: int): (d: Decision)
    ensures !d.Quiet? ==> d.threshold in config.thresholds
    ensures d.Fire? ==> Check(d.threshold, value) == Some(d.violation)
                        && MayDispatch(s, deviceId, config.sensorType, d.threshold.action, now)
    ensures d.Blocked? ==> Check(d.threshold, value).Some?
                           && !MayDispatch(s, deviceId, config.sensorType, d.threshold.action, now)
    ensures d.Quiet? <==> forall k :: 0 <= k < |config.thresholds| ==> Check(config.thresholds[k], value).None?
  {
    var sorted := CriticalFirst(config.thresholds);
    assert forall th :: th in sorted <==> th in config.thresholds by {
      forall th ensures th in sorted <==> th in config.thresholds {
        assert th in sorted <==> th in multiset(sorted);
      }
    }
    match FirstViolated(sorted, value)
    case None =>
      assert forall k :: 0 <= k < |config.thresholds| ==> Check(config.thresholds[k], value).None? by {
        forall k | 0 <= k < |config.thresholds|
          ensures Check(config.thresholds[k], value).None?
        {
          assert config.thresholds[k] in sorted;
        }
      }
      Quiet
    case Some(i) =>
      var th := sorted[i];
      if MayDispatch(s, deviceId, config.sensorType, th.action, now) then Fire(th, Check(th, value).value)
      else Blocked(th)
  }

  /** Everything an evaluation reads and writes: the anti-spam maps, the
      alert and command tables, the broker publications and the socket
      emits. */
  datatype Books = Books(anti: AntiSpam, alerts: seq<AlertLog>, commands: seq<CommandLog>,
                         published: seq<Mqtt.Publication>, effects: seq<Gateway.Effect>)

  /** The emit `broadcastDeviceData` makes. */
  function RoomData(deviceId: string, data: Json, stamp: string): Gateway.Effect {
    Gateway.Emit(Gateway.ToRoom(Gateway.RoomName(deviceId)), "deviceData",
                 Gateway.RoomEnvelope(deviceId, "data", JObj(data), stamp))
  }

  /** The command parameters `{reason, sensorType, level, value, threshold}`. */
  function CommandParams(reason: string, t: SensorType, level: ThresholdLevel, v: Violation): Json {
    map["reason" := JStr(reason), "sensorType" := JStr(SensorTypeName(t)), "level" := JStr(LevelName(level)),
        "value" := JNum(v.reading), "threshold" := JNum(v.bound)]
  }

  /** The `command_dispatched` broadcast: the parameters, the command and the type. */
  function DispatchedBody(action: string, params: Json): (body: Json)
    ensures body.Keys == params.Keys + {"type", "command"}
    ensures body["type"] == JStr("command_dispatched") && body["command"] == JStr(action)
  {
    params + map["type" := JStr("command_dispatched"), "command" := JStr(action)]
  }

  /** The `alert` broadcast. */
  function AlertBody(a: AlertLog): Json {
    map["type" := JStr("alert"), "sensorType" := JStr(SensorTypeName(a.sensorType)), "value" := JNum(a.value),
        "threshold" := JNum(a.threshold), "level" := JStr(LevelName(a.level)),
        "direction" := JStr(DirectionName(a.direction)), "action" := JStr(a.action), "reason" := JStr(a.reason)]
  }

  /** The alert row of a violation. */
  function AlertFor(alertId: string, deviceId: string, t: SensorType, th: Threshold, v: Violation): AlertLog {
    AlertLog(alertId, deviceId, t, v.reading, v.bound, th.level, v.direction, th.action, Reason(t, v.direction), false)
  }

  /** The command a firing threshold sends to its device. */
  function CommandFor(deviceId: string, t: SensorType, th: Threshold, v: Violation, stamp: string): Mqtt.Publication {
    Mqtt.Publication(Mqtt.CommandTopic(deviceId),
                     Mqtt.CommandPayload(th.action, JObj(CommandParams(Reason(t, v.direction), t, th.level, v)), stamp),
                     Mqtt.AtLeastOnce)
  }

  /** The command row: success follows the broker's answer, and a failure
      keeps the broker's message. */
  function CommandLogFor(deviceId: string, t: SensorType, th: Threshold, v: Violation,
                         answer: PublishOutcome): CommandLog {
    CommandLog(deviceId, th.action, JObj(CommandParams(Reason(t, v.direction), t, th.level, v)), Automated,
               Some(SensorTypeName(t)), Some(Reason(t, v.direction)), answer.Published?,
               if answer.PublishFailed? then Some(answer.message) else None)
  }

  /** The `command_dispatched` broadcast of a firing threshold. */
  function DispatchedFor(deviceId: string, t: SensorType, th: Threshold, v: Violation, stamp: string): Gateway.Effect {
    RoomData(deviceId, DispatchedBody(th.action, CommandParams(Reason(t, v.direction), t, th.level, v)), stamp)
  }

  /** The records a firing threshold leaves: the command (published,
      announced on success, logged either way) unless the action is
      `ALERT_ONLY`, then the alert row and its broadcast. */
  function Recorded(b: Books, deviceId: string, t: SensorType, th: Threshold, v: Violation,
                    answer: PublishOutcome, alertId: string, stamp: string): (r: Books)
    ensures r.anti == b.anti && r.alerts == b.alerts + [AlertFor(alertId, deviceId, t, th, v)]
  {
    var alert := AlertFor(alertId, deviceId, t, th, v);
    var alertEmit := RoomData(deviceId, AlertBody(alert), stamp);
    if th.action == AlertOnly then
      b.(alerts := b.alerts + [alert], effects := b.effects + [alertEmit])
    else
      var announced := if answer.Published? then [DispatchedFor(deviceId, t, th, v, stamp)] else [];
      b.(alerts := b.alerts + [alert], commands := b.commands + [CommandLogFor(deviceId, t, th, v, answer)],
         published := b.published + [CommandFor(deviceId, t, th, v, stamp)],
         effects := b.effects + announced + [alertEmit])
  }

  /** The books after a threshold fires: latch and cooldown set, then the records. */
  function Fired(b: Books, deviceId: string, t: SensorType, th: Threshold, v: Violation, now: int,
                 answer: PublishOutcome, alertId: string, stamp: string): (r: Books)
    ensures r.anti == Latch(b.anti, deviceId, t, th.action, now)
    ensures r.alerts == b.alerts + [AlertFor(alertId, deviceId, t, th, v)]
  {
    Recorded(b.(anti := Latch(b.anti, deviceId, t, th.action, now)), deviceId, t, th, v, answer, alertId, stamp)
  }

  /** One call of `evaluate`. */
  function Evaluation(b: Books, deviceId: string, config: SensorConfig, value: Number, now: int,
                      answer: PublishOutcome, alertId: string, stamp: string): (r: Books)
    ensures |b.alerts| <= |r.alerts| <= |b.alerts| + 1 && r.alerts[..|b.alerts|] == b.alerts
    ensures Decide(b.anti, deviceId, config, value, now).Blocked? ==> r == b
    ensures Decide(b.anti, deviceId, config, value, now).Quiet? ==>
              r == b.(anti := Clear(b.anti, deviceId, ActionsOf(config.thresholds)))
    ensures var d := Decide(b.anti, deviceId, config, value, now);
            d.Fire? ==> r.anti == Latch(b.anti, deviceId, config.sensorType, d.threshold.action, now)
                        && r.alerts == b.alerts + [AlertFor(alertId, deviceId, config.sensorType, d.threshold, d.violation)]
  {
    match Decide(b.anti, deviceId, config, value, now)
    case Quiet => b.(anti := Clear(b.anti, deviceId, ActionsOf(config.thresholds)))
    case Blocked(_) => b
    case Fire(th, v) =>
      var r := Fired(b, deviceId, config.sensorType, th, v, now, answer, alertId, stamp);
      assert r.alerts[..|b.alerts|] == b.alerts;
      r
  }

  // ------------------------------------------------------------ the service

  /** The alert and command tables, shared with the sensor service. */
  class Logs {
    var alerts: seq<AlertLog>
    var commands: seq<CommandLog>

    constructor()
      ensures alerts == [] && commands == []
    {
      alerts := [];
      commands := [];
    }
  }

  class ThresholdService {
    /** `deviceStates`: the latched actions of each device. */
    var latches: map<string, set<string>>
    /** `lastActionTime`, keyed by `CooldownKey`. */
    var lastAction: map<string, int>
    const logs: Logs
    const mqtt: Mqtt.MqttService
    const gateway: Gateway.DeviceGateway

    constructor(logs: Logs, mqtt: Mqtt.MqttService, gateway: Gateway.DeviceGateway)
      ensures latches == map[] && lastAction == map[]
      ensures this.logs == logs && this.mqtt == mqtt && this.gateway == gateway
    {
      latches := map[];
      lastAction := map[];
      this.logs := logs;
      this.mqtt := mqtt;
      this.gateway := gateway;
    }

    function Anti(): AntiSpam
      reads this
    {
      AntiSpam(latches, lastAction)
    }

    function Snapshot(): Books
      reads this, logs, mqtt, gateway
    {
      Books(Anti(), logs.alerts, logs.commands, mqtt.published, gateway.effects)
    }

    /** `shouldDispatch`. */
    method ShouldDispatch(deviceId: string, t: SensorType, action: string, now: int) returns (ok: bool)
      modifies this
      ensures ok == MayDispatch(old(Anti()), deviceId, t, action, now)
      ensures Anti() == if ok then Latch(old(Anti()), deviceId, t, action, now) else old(Anti())
    {
      var deviceLatches := if deviceId in latches then latches[deviceId] else {};
      if action in deviceLatches {
        return false;
      }
      var key := CooldownKey(deviceId, t);
      if key in lastAction && lastAction[key] != 0 && now - lastAction[key] < CooldownMs {
        return false;
      }
      latches := latches[deviceId := deviceLatches + {action}];
      lastAction := lastAction[key := now];
      return true;
    }

    /** `clearStatesForSensor`: unlatch, one threshold at a time. */
    method ClearStatesForSensor(deviceId: string, config: SensorConfig)
      modifies this
      ensures Anti() == Clear(old(Anti()), deviceId, ActionsOf(config.thresholds))
    {
      if deviceId !in latches {
        return;
      }
      var ths := config.thresholds;
      var start := latches[deviceId];
      assert ths[..0] == [];
      assert ActionsOf(ths[..0]) == {};
      assert start - ActionsOf(ths[..0]) == start;
      assert latches == latches[deviceId := start - ActionsOf(ths[..0])];
      for i := 0 to |ths|
        invariant lastAction == old(lastAction)
        invariant latches == old(latches)[deviceId := start - ActionsOf(ths[..i])]
      {
        ActionsOfStep(ths, i);
        RemoveOneMore(start, ActionsOf(ths[..i]), ths[i].action);
        UpdateTwice(old(latches), deviceId, start - ActionsOf(ths[..i]), start - ActionsOf(ths[..i + 1]));
        latches := latches[deviceId := latches[deviceId] - {ths[i].action}];
      }
      assert ths[..|ths|] == ths;
    }

    /** The part of `evaluate` after `shouldDispatch` said yes: the command
        unless `ALERT_ONLY`, then the alert. */
    method RecordFiring(deviceId: string, t: SensorType, th: Threshold, v: Violation,
                        answer: PublishOutcome, alertId: string, stamp: string)
      modifies logs, mqtt, gateway
      ensures Snapshot() == Recorded(old(Snapshot()), deviceId, t, th, v, answer, alertId, stamp)
      ensures mqtt.registry == old(mqtt.registry) && gateway.clients == old(gateway.clients)
    {
      if th.action != AlertOnly {
        var params := CommandParams(Reason(t, v.direction), t, th.level, v);
        var outcome := mqtt.PublishToDevice(deviceId, th.action, JObj(params), stamp, answer);
        if outcome.Published? {
          gateway.BroadcastDeviceData(deviceId, JObj(DispatchedBody(th.action, params)), stamp);
        }
        logs.commands := logs.commands + [CommandLogFor(deviceId, t, th, v, outcome)];
      }
      var alert := AlertFor(alertId, deviceId, t, th, v);
      logs.alerts := logs.alerts + [alert];
      gateway.BroadcastDeviceData(deviceId, JObj(AlertBody(alert)), stamp);
    }

    /** `evaluate`: the first crossed threshold in critical-first order is
        the only one looked at. */
    method Evaluate(deviceId: string, config: SensorConfig, value: Number, now: int,
                    answer: PublishOutcome, alertId: string, stamp: string)
      modifies this, logs, mqtt, gateway
      ensures Snapshot() == Evaluation(old(Snapshot()), deviceId, config, value, now, answer, alertId, stamp)
      ensures mqtt.registry == old(mqtt.registry) && gateway.clients == old(gateway.clients)
    {
      var t := config.sensorType;
      var sorted := CriticalFirst(config.thresholds);
      for i := 0 to |sorted|
        invariant forall k :: 0 <= k < i ==> Check(sorted[k], value).None?
        invariant Snapshot() == old(Snapshot())
        invariant mqtt.registry == old(mqtt.registry) && gateway.clients == old(gateway.clients)
      {
        var v := Check(sorted[i], value);
        if v.None? {
          continue;
        }
        var th := sorted[i];
        assert FirstViolated(sorted, value) == Some(i);
        var ok := ShouldDispatch(deviceId, t, th.action, now);
        if !ok {
          return;
        }
        ghost var latched := Snapshot();
        assert latched == old(Snapshot()).(anti := Latch(old(Anti()), deviceId, t, th.action, now));
        RecordFiring(deviceId, t, th, v.value, answer, alertId, stamp);
        return;
      }
      assert FirstViolated(sorted, value).None?;
      ClearStatesForSensor(deviceId, config);
    }
  }

  // ------------------------------------------------------------ properties

  /** The threshold an evaluation acts on or is blocked at is a critical
      one whenever some critical threshold is crossed. */
  lemma {:induction false} CriticalTakesPriority(s: AntiSpam, deviceId: string, config: SensorConfig, value: Number,
                                                 now: int, c: Threshold)
    requires c in config.thresholds && c.level == Critical && Check(c, value).Some?
    ensures var d := Decide(s, deviceId, config, value, now);
            !d.Quiet? && d.threshold.level == Critical
  {
    var sorted := CriticalFirst(config.thresholds);
    assert c in multiset(sorted);
    var j :| 0 <= j < |sorted| && sorted[j] == c;
    var i := FirstViolated(sorted, value).value;
    assert i <= j;
    assert sorted[i].level == Critical by {
      if sorted[i].level == Warning && i < j {
        assert sorted[j].level == Warning;
      }
    }
  }

  /** Idempotence: when an evaluation fires, repeating it with the same
      reading and configuration, at any later time and with nothing in
      between, changes nothing at all; the pair raises exactly one alert. */
  lemma {:induction false} RepeatAfterFiringIsSilent(b: Books, deviceId: string, config: SensorConfig, value: Number,
                                                     now1: int, now2: int, answer1: PublishOutcome,
                                                     answer2: PublishOutcome, id1: string, id2: string,
                                                     stamp1: string, stamp2: string)
    requires Decide(b.anti, deviceId, config, value, now1).Fire?
    ensures var b1 := Evaluation(b, deviceId, config, value, now1, answer1, id1, stamp1);
            var b2 := Evaluation(b1, deviceId, config, value, now2, answer2, id2, stamp2);
            b2 == b1 && |b2.alerts| == |b.alerts| + 1
  {
    var th := Decide(b.anti, deviceId, config, value, now1).threshold;
    var b1 := Evaluation(b, deviceId, config, value, now1, answer1, id1, stamp1);
    var d2 := Decide(b1.anti, deviceId, config, value, now2);
    SameFirstViolated(b.anti, b1.anti, deviceId, config, value, now1, now2);
    assert Latched(b1.anti, deviceId, th.action);
    assert d2.Blocked?;
  }

  /** The threshold the decision looks at depends on the reading and the
      configuration only, not on the anti-spam state or the clock. */
  lemma SameFirstViolated(s1: AntiSpam, s2: AntiSpam, deviceId: string, config: SensorConfig, value: Number,
                          now1: int, now2: int)
    requires !Decide(s1, deviceId, config, value, now1).Quiet?
    ensures !Decide(s2, deviceId, config, value, now2).Quiet?
    ensures Decide(s1, deviceId, config, value, now1).threshold == Decide(s2, deviceId, config, value, now2).threshold
  {
  }

  /** Recovery re-arms: after a reading that violates nothing, the next
      violating reading fires again unless the sensor's cooldown is still
      running. */
  lemma {:induction false} RecoveryRearms(b: Books, deviceId: string, config: SensorConfig, quiet: Number,
                                          value: Number, now1: int, now2: int, answer: PublishOutcome,
                                          alertId: string, stamp: string)
    requires Decide(b.anti, deviceId, config, quiet, now1).Quiet?
    requires exists k :: 0 <= k < |config.thresholds| && Check(config.thresholds[k], value).Some?
    requires !CoolingDown(b.anti, CooldownKey(deviceId, config.sensorType), now2)
    ensures var b1 := Evaluation(b, deviceId, config, quiet, now1, answer, alertId, stamp);
            Decide(b1.anti, deviceId, config, value, now2).Fire?
  {
    var b1 := Evaluation(b, deviceId, config, quiet, now1, answer, alertId, stamp);
    var d := Decide(b1.anti, deviceId, config, value, now2);
    assert !d.Quiet?;
    var th := d.threshold;
    var k :| 0 <= k < |config.thresholds| && config.thresholds[k] == th;
    assert th.action in ActionsOf(config.thresholds);
    assert !Latched(b1.anti, deviceId, th.action);
  }

  /** The cooldown: once a threshold of a sensor fires at a non-zero time,
      no threshold of the same device and sensor type fires in the next
      30 seconds, whatever its action; a firing stamped at time 0 starts no
      cooldown. */
  lemma {:induction false} CooldownHoldsOff(b: Books, deviceId: string, config: SensorConfig, value: Number, now: int,
                                            answer: PublishOutcome, alertId: string, stamp: string,
                                            config2: SensorConfig, value2: Number, now2: int)
    requires Decide(b.anti, deviceId, config, value, now).Fire?
    requires config2.sensorType == config.sensorType
    ensures var b1 := Evaluation(b, deviceId, config, value, now, answer, alertId, stamp);
            (now != 0 && now2 - now < CooldownMs ==> !Decide(b1.anti, deviceId, config2, value2, now2).Fire?)
            && (now == 0 ==> !CoolingDown(b1.anti, CooldownKey(deviceId, config.sensorType), now2))
  {
    var b1 := Evaluation(b, deviceId, config, value, now, answer, alertId, stamp);
    var key := CooldownKey(deviceId, config.sensorType);
    assert b1.anti.lastAction[key] == now;
  }

  /** What a firing evaluation records: one alert carrying the reason code
      of its sensor type and direction; with `ALERT_ONLY` no command is
      published or logged; otherwise one command goes to the device's command
      topic and one automated command row is written, successful exactly
      when the broker took the command and carrying the broker's message when
      it did not. Either way the last emit is the alert broadcast. */
  lemma {:induction false} FiringRecords(b: Books, deviceId: string, config: SensorConfig, value: Number, now: int,
                                         answer: PublishOutcome, alertId: string, stamp: string)
    requires Decide(b.anti, deviceId, config, value, now).Fire?
    ensures var d := Decide(b.anti, deviceId, config, value, now);
            var r := Evaluation(b, deviceId, config, value, now, answer, alertId, stamp);
            var alert := r.alerts[|b.alerts|];
            |r.alerts| == |b.alerts| + 1
            && alert.reason == Reason(config.sensorType, d.violation.direction)
            && alert.action == d.threshold.action && alert.level == d.threshold.level
            && alert.value == d.violation.reading && alert.threshold == d.violation.bound && !alert.acknowledged
            && |r.effects| > |b.effects| && r.effects[|r.effects| - 1] == RoomData(deviceId, AlertBody(alert), stamp)
            && (d.threshold.action == AlertOnly ==> r.commands == b.commands && r.published == b.published)
            && (d.threshold.action != AlertOnly ==>
                  |r.commands| == |b.commands| + 1 && |r.published| == |b.published| + 1
                  && r.published[|b.published|].topic == Mqtt.CommandTopic(deviceId)
                  && r.published[|b.published|].qos == Mqtt.AtLeastOnce
                  && r.commands[|b.commands|].command == d.threshold.action
                  && r.commands[|b.commands|].source == Automated
                  && (r.commands[|b.commands|].success <==> answer.Published?)
                  && (answer.PublishFailed? ==> r.commands[|b.commands|].errorMessage == Some(answer.message)))
  {
  }
}
