/** The bridge between the broker and the client sockets
    (src/device/sync/sync.service.ts): which callbacks it registers with the
    broker bridge, how each forwards a device message to the device's room,
    and the command façade with its success and failure contract. Each
    method is one atomic sequence of effects on the broker bridge, the
    gateway and the provisioning service it is wired to. */
module Sync {

  import opened Common
  import opened Strings
  import opened Topics
  import Mqtt
  import Gateway
  import Provision


  const ProvisioningHandler: Mqtt.Handler := Mqtt.Handler("handleProvisioningMessage")
  const StatusHandler: Mqtt.Handler := Mqtt.Handler("handleDeviceStatus")
  const TelemetryHandler: Mqtt.Handler := Mqtt.Handler("handleDeviceTelemetry")
  const ResponseHandler: Mqtt.Handler := Mqtt.Handler("handleDeviceResponse")

  /** The filters the broker bridge subscribes to on connecting: only
      messages on topics these select ever reach a callback. */
  const BrokerSubscriptions: seq<string> :=
    ["provision/new", DeviceFilter("status"), DeviceFilter("telemetry"), DeviceFilter("resp")]

  /** The filter of one kind of device message, `device/+/{kind}`. */
  function DeviceFilter(kind: string): (f: string)
    ensures |f| == 9 + |kind| && f[9..] == kind && f[0] == 'd'
    ensures f == "device" + "/" + ("+/" + kind)
  {
    "device/+/" + kind
  }

  /** The farm-scoped filter `farm/+/device/+/{kind}`. */
  function FarmDeviceFilter(kind: string): (f: string)
    ensures f == "farm" + "/" + ("+/device/+/" + kind) && f[0] == 'f'
  {
    "farm/+/device/+/" + kind
  }

  /** The filter the response handler is registered under in the source. */
  const ResponseFilterAsWritten: string := FarmDeviceFilter("resp")

  /** The filter the response handler is meant to listen on: the one the
      bridge subscribes to. */
  const ResponseFilter: string := DeviceFilter("resp")

  /** The registry after the registrations `setupMqttToWebSocketSync`
      makes, in order, with the response handler under `responseFilter`. */
  function Wire(r: Mqtt.Registry, responseFilter: string): (r': Mqtt.Registry)
    requires r.Valid()
    ensures r'.Valid()
  {
    var r1 := Mqtt.Register(r, "provision/new", ProvisioningHandler);
    var r2 := Mqtt.Register(r1, DeviceFilter("status"), StatusHandler);
    var r3 := Mqtt.Register(r2, DeviceFilter("telemetry"), TelemetryHandler);
    Mqtt.Register(r3, responseFilter, ResponseHandler)
  }

  /** Four registrations under four distinct filters, on an empty registry. */
  lemma RegisterFour(f0: string, f1: string, f2: string, f3: string,
                     h0: Mqtt.Handler, h1: Mqtt.Handler, h2: Mqtt.Handler, h3: Mqtt.Handler)
    requires f0 != f1 && f0 != f2 && f0 != f3 && f1 != f2 && f1 != f3 && f2 != f3
    ensures var r0 := Mqtt.Registry([], map[]);
            Mqtt.Register(Mqtt.Register(Mqtt.Register(Mqtt.Register(r0, f0, h0), f1, h1), f2, h2), f3, h3)
            == Mqtt.Registry([f0, f1, f2, f3], map[f0 := [h0], f1 := [h1], f2 := [h2], f3 := [h3]])
  {
    var r0 := Mqtt.Registry([], map[]);
    var r1 := Mqtt.Register(r0, f0, h0);
    RegisterFresh(r0, f0, h0);
    var r2 := Mqtt.Register(r1, f1, h1);
    RegisterFresh(r1, f1, h1);
    var r3 := Mqtt.Register(r2, f2, h2);
    RegisterFresh(r2, f2, h2);
    RegisterFresh(r3, f3, h3);
    AppendedFour(f0, f1, f2, f3);
  }

  /** Four appends to the empty sequence give the four-element display. */
  lemma AppendedFour<T>(a: T, b: T, c: T, d: T)
    ensures [] + [a] + [b] + [c] + [d] == [a, b, c, d]
  {
  }

  /** Registering a filter not yet present appends it with one callback. */
  lemma RegisterFresh(r: Mqtt.Registry, f: string, h: Mqtt.Handler)
    requires r.Valid() && f !in r.callbacks
    ensures Mqtt.Register(r, f, h) == Mqtt.Registry(r.patterns + [f], r.callbacks[f := [h]])
  {
  }

  /** The callbacks a registry of four single-callback filters hands a
      message on `topic` to: each in order, when its filter selects it. */
  lemma SelectedOfFour(r: Mqtt.Registry, f0: string, f1: string, f2: string, f3: string,
                       h0: Mqtt.Handler, h1: Mqtt.Handler, h2: Mqtt.Handler, h3: Mqtt.Handler, topic: string)
    requires r == Mqtt.Registry([f0, f1, f2, f3], map[f0 := [h0], f1 := [h1], f2 := [h2], f3 := [h3]])
    requires f0 != f1 && f0 != f2 && f0 != f3 && f1 != f2 && f1 != f3 && f2 != f3
    ensures r.Valid()
    ensures Mqtt.Selected(r, topic)
            == (if Mqtt.Selects(f0, topic) then [h0] else []) + (if Mqtt.Selects(f1, topic) then [h1] else [])
               + (if Mqtt.Selects(f2, topic) then [h2] else []) + (if Mqtt.Selects(f3, topic) then [h3] else [])
  {
    assert r.Valid();
    assert r.callbacks[f0] == [h0] && r.callbacks[f1] == [h1] && r.callbacks[f2] == [h2] && r.callbacks[f3] == [h3];
    SingleCallbackStep(r, topic, 0, f0, h0);
    SingleCallbackStep(r, topic, 1, f1, h1);
    SingleCallbackStep(r, topic, 2, f2, h2);
    SingleCallbackStep(r, topic, 3, f3, h3);
    assert Mqtt.SelectedPrefix(r, topic, 0) == [];
    AppendToEmpty(if Mqtt.Selects(f0, topic) then [h0] else []);
  }

  lemma AppendToEmpty<T>(a: seq<T>)
    ensures [] + a == a
  {
  }

  /** One more filter holding the single callback `h`. */
  lemma SingleCallbackStep(r: Mqtt.Registry, topic: string, n: nat, f: string, h: Mqtt.Handler)
    requires r.Valid() && n < |r.patterns| && r.patterns[n] == f && f in r.callbacks && r.callbacks[f] == [h]
    ensures Mqtt.SelectedPrefix(r, topic, n + 1)
            == Mqtt.SelectedPrefix(r, topic, n) + (if Mqtt.Selects(f, topic) then [h] else [])
  {
  }

  /** Started on an empty registry with the response handler under `f`,
      the bridge holds the four filters in registration order, one callback
      each. */
  lemma WireShape(f: string, fp: string, fs: string, ft: string)
    requires fp == "provision/new" && fs == DeviceFilter("status") && ft == DeviceFilter("telemetry")
    requires f != fp && f != fs && f != ft
    ensures Wire(Mqtt.Registry([], map[]), f)
            == Mqtt.Registry([fp, fs, ft, f],
                             map[fp := [ProvisioningHandler], fs := [StatusHandler], ft := [TelemetryHandler],
                                 f := [ResponseHandler]])
  {
    assert fs != fp && ft != fp by {
      assert fs[0] == 'd' && ft[0] == 'd';
    }
    assert ft != fs by {
      assert |ft| != |fs|;
    }
    RegisterFour(fp, fs, ft, f, ProvisioningHandler, StatusHandler, TelemetryHandler, ResponseHandler);
  }

  /** Once wired, every status, telemetry or response message of a device
      reaches exactly the one handler of its kind. */
  lemma DeviceMessagesReachTheirHandler(id: string, kind: string)
    requires Sep !in id && kind in ["status", "telemetry", "resp"]
    ensures var topic := "device/" + id + "/" + kind;
            Mqtt.Selected(Wire(Mqtt.Registry([], map[]), ResponseFilter), topic)
            == [if kind == "status" then StatusHandler
                else if kind == "telemetry" then TelemetryHandler
                else ResponseHandler]
  {
    var f, fp, fs, ft := ResponseFilter, "provision/new", DeviceFilter("status"), DeviceFilter("telemetry");
    assert f != fp && fs != fp && ft != fp by {
      assert f[0] == 'd' && fs[0] == 'd' && ft[0] == 'd' && fp[0] == 'p';
    }
    assert ft != fs && f != fs && f != ft by {
      assert |ft| != |fs| && |f| != |fs| && |f| != |ft|;
    }
    WireShape(f, fp, fs, ft);
    ReachTheirHandler(id, kind, Wire(Mqtt.Registry([], map[]), f), f, fp, fs, ft);
  }

  lemma {:induction false} ReachTheirHandler(id: string, kind: string, r: Mqtt.Registry,
                                             f: string, fp: string, fs: string, ft: string)
    requires Sep !in id && kind in ["status", "telemetry", "resp"]
    requires f == DeviceFilter("resp") && fp == "provision/new" && fs == DeviceFilter("status")
             && ft == DeviceFilter("telemetry")
    requires f != fp && fs != fp && ft != fp && ft != fs && f != fs && f != ft
    requires r == Mqtt.Registry([fp, fs, ft, f],
                                map[fp := [ProvisioningHandler], fs := [StatusHandler], ft := [TelemetryHandler],
                                    f := [ResponseHandler]])
    ensures r.Valid()
    ensures var topic := "device/" + id + "/" + kind;
            Mqtt.Selected(r, topic)
            == [if kind == "status" then StatusHandler
                else if kind == "telemetry" then TelemetryHandler
                else ResponseHandler]
  {
    var topic := "device/" + id + "/" + kind;
    SelectedOfFour(r, fp, fs, ft, f, ProvisioningHandler, StatusHandler, TelemetryHandler, ResponseHandler, topic);
    KindIsOneLevel(kind);
    assert !Mqtt.Selects(fp, topic) by {
      DeviceTopicNotProvision(id, kind, fp);
    }
    assert Mqtt.Selects(fs, topic) <==> kind == "status" by {
      KindIsOneLevel("status");
      DeviceTopicKind(id, kind, "status", fs);
    }
    assert Mqtt.Selects(ft, topic) <==> kind == "telemetry" by {
      KindIsOneLevel("telemetry");
      DeviceTopicKind(id, kind, "telemetry", ft);
    }
    assert Mqtt.Selects(f, topic) <==> kind == "resp" by {
      KindIsOneLevel("resp");
      DeviceTopicKind(id, kind, "resp", f);
    }
  }

  /** Each message kind the bridge listens for is one literal level. */
  lemma KindIsOneLevel(kind: string)
    requires kind in ["status", "telemetry", "resp"]
    ensures Sep !in kind && kind != "#" && kind != "+"
  {
  }

  /** A device topic is never a provisioning topic. */
  lemma DeviceTopicNotProvision(id: string, kind: string, fp: string)
    requires fp == "provision/new"
    ensures !Mqtt.Selects(fp, "device/" + id + "/" + kind)
  {
    var topic := "device/" + id + "/" + kind;
    FirstLevelOf("device", id + "/" + kind);
    assert "device" + "/" + (id + "/" + kind) == topic;
    FirstLevelOf("provision", "new");
    assert "provision" + "/" + "new" == fp;
    assert topic != Mqtt.CatchAll by {
      assert |topic| > 1;
    }
    if Matches(topic, fp) {
      FirstLevelFixed(topic, fp);
      assert false;
    }
  }

  /** The filter `g` of kind `k` selects a device topic of kind `kind`
      exactly when the kinds agree. */
  lemma DeviceTopicKind(id: string, kind: string, k: string, g: string)
    requires Sep !in id && Sep !in kind && Sep !in k && k != "#" && k != "+" && g == DeviceFilter(k)
    ensures Mqtt.Selects(g, "device/" + id + "/" + kind) <==> kind == k
  {
    DeviceFilterSelectsOnlyItsKind(id, kind, k);
    assert g != Mqtt.CatchAll by {
      assert |g| > 1;
    }
  }

  /** A topic selected by a filter `a/rest` whose first level is the
      literal `a` has first level `a`. */
  lemma SelectedFirstLevel(topic: string, sub: string, a: string, rest: string)
    requires sub == a + "/" + rest && Sep !in a && a != "+" && a != "#" && Matches(topic, sub)
    ensures Levels(topic)[0] == a
  {
    FirstLevelOf(a, rest);
    FirstLevelFixed(topic, sub);
  }

  /** Every topic the broker delivers begins with `provision` or `device`. */
  lemma {:induction false} DeliveredFirstLevel(topic: string, subs: seq<string>, i: nat)
    requires subs == BrokerSubscriptions
    requires i < |subs| && Matches(topic, subs[i])
    ensures Levels(topic)[0] == "provision" || Levels(topic)[0] == "device"
  {
    if i == 0 {
      SelectedFirstLevel(topic, subs[0], "provision", "new");
    } else if i == 1 {
      SelectedFirstLevel(topic, subs[1], "device", "+/" + "status");
    } else if i == 2 {
      SelectedFirstLevel(topic, subs[2], "device", "+/" + "telemetry");
    } else {
      SelectedFirstLevel(topic, subs[3], "device", "+/" + "resp");
    }
  }

  /** As written, the response handler is registered under a filter that
      selects no topic the broker delivers, so it never runs. */
  lemma ResponseHandlerNeverRunsAsWritten(topic: string, i: nat)
    requires i < |BrokerSubscriptions| && Matches(topic, BrokerSubscriptions[i])
    ensures ResponseHandler !in Mqtt.Selected(Wire(Mqtt.Registry([], map[]), ResponseFilterAsWritten), topic)
  {
    var f, fp, fs, ft := ResponseFilterAsWritten, "provision/new", DeviceFilter("status"), DeviceFilter("telemetry");
    assert f != fp && fs != fp && ft != fp && f != fs && f != ft by {
      assert f[0] == 'f' && fs[0] == 'd' && ft[0] == 'd' && fp[0] == 'p';
    }
    assert ft != fs by {
      assert |ft| != |fs|;
    }
    WireShape(f, fp, fs, ft);
    assert !Mqtt.Selects(f, topic) by {
      DeliveredFirstLevel(topic, BrokerSubscriptions, i);
      FarmFilterMissesDelivered(topic);
    }
    NeverRuns(topic, Wire(Mqtt.Registry([], map[]), f), f, fp, fs, ft);
  }

  /** The filter as written selects no topic whose first level is
      `provision` or `device`. */
  lemma FarmFilterMissesDelivered(topic: string)
    requires Levels(topic)[0] == "provision" || Levels(topic)[0] == "device"
    ensures !Mqtt.Selects(ResponseFilterAsWritten, topic)
  {
    var f := ResponseFilterAsWritten;
    assert f != Mqtt.CatchAll;
    if Matches(topic, f) {
      SelectedFirstLevel(topic, f, "farm", "+/device/+/" + "resp");
      assert false;
    }
  }

  /** A registry of the four filters where the response handler's filter
      does not select the topic hands it nothing. */
  lemma NeverRuns(topic: string, r: Mqtt.Registry, f: string, fp: string, fs: string, ft: string)
    requires f != fp && fs != fp && ft != fp && ft != fs && f != fs && f != ft
    requires r == Mqtt.Registry([fp, fs, ft, f],
                                map[fp := [ProvisioningHandler], fs := [StatusHandler], ft := [TelemetryHandler],
                                    f := [ResponseHandler]])
    requires !Mqtt.Selects(f, topic)
    ensures r.Valid()
    ensures ResponseHandler !in Mqtt.Selected(r, topic)
  {
    SelectedOfFour(r, fp, fs, ft, f, ProvisioningHandler, StatusHandler, TelemetryHandler, ResponseHandler, topic);
    HandlersDistinct();
  }

  /** The four callbacks are told apart by name. */
  lemma HandlersDistinct()
    ensures ResponseHandler != ProvisioningHandler && ResponseHandler != StatusHandler
            && ResponseHandler != TelemetryHandler
  {
  }

  /** As written, even a topic the response filter does select would hand
      the handler the device id "unknown". */
  lemma AsWrittenFilterLosesDeviceId(topic: string)
    requires Matches(topic, ResponseFilterAsWritten)
    ensures ExtractDeviceId(topic) == "unknown"
  {
    SelectedFirstLevel(topic, ResponseFilterAsWritten, "farm", "+/device/+/" + "resp");
  }

  /** Registered under the subscribed filter, the response of every device is
      delivered, reaches the response handler alone, and names its device. */
  lemma {:induction false} ResponsesReachHandler(id: string)
    requires Sep !in id && id != ""
    ensures var topic := "device/" + id + "/resp";
            Matches(topic, BrokerSubscriptions[3])
            && Mqtt.Selected(Wire(Mqtt.Registry([], map[]), ResponseFilter), topic) == [ResponseHandler]
            && ExtractDeviceId(topic) == id
  {
    var topic := "device/" + id + "/resp";
    assert topic == "device/" + id + "/" + "resp";
    assert Matches(topic, BrokerSubscriptions[3]) by {
      DeviceFilterSelects(id, "resp");
      assert BrokerSubscriptions[3] == "device/+/" + "resp";
    }
    assert Mqtt.Selected(Wire(Mqtt.Registry([], map[]), ResponseFilter), topic) == [ResponseHandler] by {
      DeviceMessagesReachTheirHandler(id, "resp");
    }
    assert ExtractDeviceId(topic) == id by {
      ExtractsDeviceLevel(id, "resp");
    }
  }

  // ----------------------------------------------------------- forwarding

  /** The body `handleDeviceStatus` hands to the device room: the payload's
      fields with `receivedAt` set to the receipt time. */
  function StatusBody(m: Mqtt.Message): (b: Json)
    ensures "receivedAt" in b && b["receivedAt"] == JStr(m.timestamp)
    ensures forall k :: k in b <==> k == "receivedAt" || k in Spread(m.payload)
    ensures forall k :: k in Spread(m.payload) && k != "receivedAt" ==> b[k] == Spread(m.payload)[k]
  {
    Spread(m.payload) + map["receivedAt" := JStr(m.timestamp)]
  }

  /** The body `{type, ...payload, receivedAt}` of the telemetry and
      response forwards: `type` is `kind` unless the payload sets it. */
  function TypedBody(kind: string, m: Mqtt.Message): (b: Json)
    ensures "type" in b && "receivedAt" in b && b["receivedAt"] == JStr(m.timestamp)
    ensures forall k :: k in b <==> k == "type" || k == "receivedAt" || k in Spread(m.payload)
    ensures forall k :: k in Spread(m.payload) && k != "receivedAt" ==> b[k] == Spread(m.payload)[k]
    ensures "type" !in Spread(m.payload) ==> b["type"] == JStr(kind)
  {
    map["type" := JStr(kind)] + Spread(m.payload) + map["receivedAt" := JStr(m.timestamp)]
  }

  /** The serial a provisioning request names: its `serial` field when that
      is a string. */
  function FieldString(payload: JsonValue, key: string): (s: Option<string>)
    ensures s.Some? <==> payload.JObj? && key in payload.fields && payload.fields[key].JStr?
    ensures s.Some? ==> payload.fields[key] == JStr(s.value)
  {
    if payload.JObj? && key in payload.fields && payload.fields[key].JStr? then Some(payload.fields[key].s)
    else None
  }

  /** JavaScript truthiness of a JSON value: null, false, 0 and "" are falsy. */
  predicate JsonTruthy(v: JsonValue) {
    match v
    case JNull => false
    case JBool(b) => b
    case JNum(n) => n != 0
    case JStr(str) => str != ""
    case JObj(_) => true
  }

  /** How the provisioning service sees the payload's `hw`: a string is the
      hardware version and a falsy value skips the check, while a truthy
      value of another type has no length, so `isValidHardwareVersion`
      refuses it and the request gets null. */
  datatype HwField = HwGiven(hw: Option<string>) | HwRefused

  function HardwareField(payload: JsonValue): (h: HwField)
    ensures h.HwRefused? <==> payload.JObj? && "hw" in payload.fields && JsonTruthy(payload.fields["hw"])
                              && !payload.fields["hw"].JStr?
    ensures h.HwGiven? ==> h.hw == FieldString(payload, "hw")
  {
    if payload.JObj? && "hw" in payload.fields && JsonTruthy(payload.fields["hw"]) && !payload.fields["hw"].JStr?
    then HwRefused
    else HwGiven(FieldString(payload, "hw"))
  }

  /** The `deviceProvisioned` broadcast body. */
  function ProvisionedBody(deviceId: string, serial: string, stamp: string): (b: Json)
    ensures b.Keys == {"deviceId", "serial", "timestamp"}
    ensures b["deviceId"] == JStr(deviceId) && b["serial"] == JStr(serial) && b["timestamp"] == JStr(stamp)
  {
    map["deviceId" := JStr(deviceId), "serial" := JStr(serial), "timestamp" := JStr(stamp)]
  }

  // --------------------------------------------------------- command façade

  /** What `sendCommandToDevice` returns on success. */
  datatype CommandAck = CommandAck(success: bool, message: string)

  /** The status the device room sees about a command: `commandSent`, or
      `commandFailed` carrying the broker's error message. */
  function CommandStatus(command: string, answer: PublishOutcome, stamp: string): (b: Json)
    ensures "type" in b && "command" in b && "timestamp" in b
    ensures b["command"] == JStr(command) && b["timestamp"] == JStr(stamp)
    ensures answer.Published? ==> b["type"] == JStr("commandSent") && "error" !in b
    ensures answer.PublishFailed? ==>
              b["type"] == JStr("commandFailed") && "error" in b && b["error"] == JStr(answer.message)
  {
    match answer
    case Published =>
      map["type" := JStr("commandSent"), "command" := JStr(command), "timestamp" := JStr(stamp)]
    case PublishFailed(message) =>
      map["type" := JStr("commandFailed"), "command" := JStr(command), "error" := JStr(message),
          "timestamp" := JStr(stamp)]
  }

  /** What the caller of `sendCommandToDevice` gets: the acknowledgement, or
      the very error the publish failed with. */
  function CommandReply(answer: PublishOutcome): (r: Result<CommandAck, string>)
    ensures r.Ok? <==> answer.Published?
    ensures r.Ok? ==> r.value.success
    ensures r.Err? ==> r.error == answer.message
  {
    if answer.Published? then Ok(CommandAck(true, "Command sent to device")) else Err(answer.message)
  }

  class SyncService {
    const mqtt: Mqtt.MqttService
    const gateway: Gateway.DeviceGateway
    const provision: Provision.ProvisionService

    constructor(mqtt: Mqtt.MqttService, gateway: Gateway.DeviceGateway, provision: Provision.ProvisionService)
      requires provision.mqtt == mqtt
      ensures this.mqtt == mqtt && this.gateway == gateway && this.provision == provision
    {
      this.mqtt := mqtt;
      this.gateway := gateway;
      this.provision := provision;
    }

    /** `setupMqttToWebSocketSync`: the four registrations, in order. */
    method Setup()
      requires mqtt.Valid()
      modifies mqtt
      ensures mqtt.Valid()
      ensures mqtt.registry == Wire(old(mqtt.registry), ResponseFilter)
      ensures mqtt.published == old(mqtt.published)
    {
      mqtt.OnMessage("provision/new", ProvisioningHandler);
      mqtt.OnMessage(DeviceFilter("status"), StatusHandler);
      mqtt.OnMessage(DeviceFilter("telemetry"), TelemetryHandler);
      mqtt.OnMessage(ResponseFilter, ResponseHandler);
    }

    /** `handleProvisioningMessage`: run the provisioning request named by
        the payload and announce the device to every client only when it
        produced a result. */
    method HandleProvisioningMessage(m: Mqtt.Message, now: int, newId: string, secret: seq<byte>,
                                     stamp: string, answer: PublishOutcome)
      returns (result: Option<Provision.ProvisionResult>)
      requires |secret| == Provision.SecretBytes && provision.mqtt == mqtt
      modifies provision, mqtt, gateway
      ensures HardwareField(m.payload).HwRefused? ==>
                result.None? && Provision.Store(provision.devices, provision.tokens)
                                == old(Provision.Store(provision.devices, provision.tokens))
                && mqtt.published == old(mqtt.published)
      ensures HardwareField(m.payload).HwGiven? ==>
                var step := Provision.ProvisionRequest(old(Provision.Store(provision.devices, provision.tokens)),
                                                       FieldString(m.payload, "serial"), HardwareField(m.payload).hw,
                                                       now, newId, secret);
                result == step.result && Provision.Store(provision.devices, provision.tokens) == step.store
      ensures HardwareField(m.payload).HwGiven? ==>
                mqtt.published == old(mqtt.published)
                                  + if result.Some? then [Mqtt.Publication(Provision.ProvisionResponseTopic(result.value.deviceId),
                                                                           Provision.ProvisionResponse(result.value.pairingToken, stamp),
                                                                           Mqtt.AtLeastOnce)]
                                    else []
      ensures mqtt.registry == old(mqtt.registry)
      ensures result.None? ==> gateway.effects == old(gateway.effects)
      ensures result.Some? ==>
                gateway.effects == old(gateway.effects)
                                   + [Gateway.Emit(Gateway.ToAll, "deviceProvisioned",
                                                   ProvisionedBody(result.value.deviceId,
                                                                   FieldString(m.payload, "serial").value, stamp))]
      ensures gateway.clients == old(gateway.clients)
    {
      var serial := FieldString(m.payload, "serial");
      var hw := HardwareField(m.payload);
      if hw.HwRefused? {
        result := None;
      } else {
        result := provision.HandleProvisionRequest(serial, hw.hw, now, newId, secret, stamp, answer);
        if result.Some? {
          gateway.Broadcast("deviceProvisioned", ProvisionedBody(result.value.deviceId, serial.value, stamp));
        }
      }
    }

    /** `handleDeviceStatus`. */
    method HandleDeviceStatus(m: Mqtt.Message, stamp: string)
      modifies gateway
      ensures gateway.effects == old(gateway.effects)
                                 + [Gateway.Emit(Gateway.ToRoom(Gateway.RoomName(m.deviceId)), "deviceStatus",
                                                 Gateway.RoomEnvelope(m.deviceId, "status", JObj(StatusBody(m)), stamp))]
      ensures gateway.clients == old(gateway.clients)
    {
      gateway.BroadcastDeviceStatus(m.deviceId, JObj(StatusBody(m)), stamp);
    }

    /** `handleDeviceTelemetry`. */
    method HandleDeviceTelemetry(m: Mqtt.Message, stamp: string)
      modifies gateway
      ensures gateway.effects == old(gateway.effects)
                                 + [Gateway.Emit(Gateway.ToRoom(Gateway.RoomName(m.deviceId)), "deviceData",
                                                 Gateway.RoomEnvelope(m.deviceId, "data",
                                                                      JObj(TypedBody("telemetry", m)), stamp))]
      ensures gateway.clients == old(gateway.clients)
    {
      gateway.BroadcastDeviceData(m.deviceId, JObj(TypedBody("telemetry", m)), stamp);
    }

    /** `handleDeviceResponse`. */
    method HandleDeviceResponse(m: Mqtt.Message, stamp: string)
      modifies gateway
      ensures gateway.effects == old(gateway.effects)
                                 + [Gateway.Emit(Gateway.ToRoom(Gateway.RoomName(m.deviceId)), "deviceStatus",
                                                 Gateway.RoomEnvelope(m.deviceId, "status",
                                                                      JObj(TypedBody("commandResponse", m)), stamp))]
      ensures gateway.clients == old(gateway.clients)
    {
      gateway.BroadcastDeviceStatus(m.deviceId, JObj(TypedBody("commandResponse", m)), stamp);
    }

    /** `sendCommandToDevice`: publish the command, tell the device room how
        it went, and return the acknowledgement or rethrow the error. */
    method SendCommandToDevice(deviceId: string, command: string, params: JsonValue, stamp: string,
                               answer: PublishOutcome)
      returns (r: Result<CommandAck, string>)
      modifies mqtt, gateway
      ensures mqtt.published == old(mqtt.published)
                                + [Mqtt.Publication(Mqtt.CommandTopic(deviceId),
                                                    Mqtt.CommandPayload(command, params, stamp), Mqtt.AtLeastOnce)]
      ensures mqtt.registry == old(mqtt.registry)
      ensures gateway.effects == old(gateway.effects)
                                 + [Gateway.Emit(Gateway.ToRoom(Gateway.RoomName(deviceId)), "deviceStatus",
                                                 Gateway.RoomEnvelope(deviceId, "status",
                                                                      JObj(CommandStatus(command, answer, stamp)), stamp))]
      ensures gateway.clients == old(gateway.clients)
      ensures r == CommandReply(answer)
    {
      var outcome := mqtt.PublishToDevice(deviceId, command, params, stamp, answer);
      if outcome.Published? {
        gateway.BroadcastDeviceStatus(deviceId, JObj(map["type" := JStr("commandSent"), "command" := JStr(command),
                                                          "timestamp" := JStr(stamp)]), stamp);
        return Ok(CommandAck(true, "Command sent to device"));
      } else {
        gateway.BroadcastDeviceStatus(deviceId, JObj(map["type" := JStr("commandFailed"), "command" := JStr(command),
                                                          "error" := JStr(outcome.message),
                                                          "timestamp" := JStr(stamp)]), stamp);
        return Err(outcome.message);
      }
    }

    /** `broadcastDeviceListUpdate`. */
    method BroadcastDeviceListUpdate(stamp: string)
      modifies gateway
      ensures gateway.effects == old(gateway.effects)
                                 + [Gateway.Emit(Gateway.ToAll, "deviceListUpdated", map["timestamp" := JStr(stamp)])]
      ensures gateway.clients == old(gateway.clients)
    {
      gateway.Broadcast("deviceListUpdated", map["timestamp" := JStr(stamp)]);
    }
  }
}
