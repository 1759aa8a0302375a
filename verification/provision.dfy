/** Provisioning and pairing (src/provision/provision.service.ts): a device
    announces its serial and receives a one-day pairing token; a user redeems
    that token to bind the device to a farm and obtain the device's broker
    secret. The device directory and the token store are sequences of rows;
    the clock, the 32 random bytes behind each secret and the id the database
    assigns to a new row are parameters. */
module Provision {

  import opened Common
  import opened Strings
  import opened Devices
  import Mqtt
  import Topics

  /** A pairing token is valid for 24 hours. */
  const PairingTokenLifetime: int := 24 * 60 * 60 * 1000

  /** Every secret is this many random bytes, rendered as hex. */
  const SecretBytes: nat := 32

  /** The two tables the service works on. */
  datatype Store = Store(devices: seq<Device>, tokens: seq<PairingToken>)
  {
    ghost predicate Valid() {
      DevicesUnique(devices) && TokensUnique(tokens)
    }
  }

  datatype ProvisionResult = ProvisionResult(deviceId: string, serial: Option<string>, pairingToken: string, expiresAt: int)

  /** The store after a provisioning request, and what the request returned
      (`None` is the service's `null`). */
  datatype ProvisionStep = ProvisionStep(store: Store, result: Option<ProvisionResult>)

  datatype PairError =
    | DeviceNotFound
    | CannotPair(status: DeviceStatus)
    | NoPairingToken
    | TokenAlreadyUsed
    | TokenExpired
    | InvalidPairingToken

  datatype PairResult = PairResult(deviceId: string, serial: Option<string>, deviceToken: string, status: DeviceStatus)

  datatype PairStep = PairStep(store: Store, result: Result<PairResult, PairError>)

  datatype RegenerateError = NotFound | CannotRegenerate(status: DeviceStatus)

  datatype PairingStatus = PairingStatus(
    deviceId: string, serial: Option<string>, status: DeviceStatus,
    farmId: Option<string>, provisionedAt: Option<int>, pairedAt: Option<int>)

  /** `isValidHardwareVersion`: a version is valid when it is non-empty and
      any row that fits its columns still fits them holding this version. */
  predicate IsValidHardwareVersion(hw: string)
    ensures forall d: Device {:trigger FitsColumns(d)} :: FitsColumns(d) ==>
              (IsValidHardwareVersion(hw) <==> hw != "" && FitsColumns(d.(hardwareVersion := Some(hw))))
  {
    0 < |hw| <= 50
  }

  /** A secret: the hex rendering of 32 random bytes. */
  function Secret(bytes: seq<byte>): (s: string)
    requires |bytes| == SecretBytes
    ensures |s| == 64 && forall k :: 0 <= k < |s| ==> IsLowerHex(s[k])
  {
    Hex(bytes)
  }

  /** The display name of a new device: `Device-` and the serial's last
      (at most) eight characters. */
  function DeviceName(serial: string): (name: string)
    ensures |name| == 7 + (if |serial| < 8 then |serial| else 8)
    ensures StartsWith(name, "Device-") && name[7..] == serial[|serial| - |name[7..]|..]
  {
    var name := "Device-" + SliceLast(serial, 8);
    assert name[..7] == "Device-";
    assert name[7..] == SliceLast(serial, 8);
    name
  }

  /** The row created for a serial seen for the first time. */
  function NewDevice(id: string, serial: string, hw: Option<string>, now: int): (d: Device)
    ensures d.status == Pending && d.serial == Some(serial) && d.imei == serial
    ensures d.farmId.None? && d.deviceToken.None? && d.pairedAt.None? && d.provisionedAt == Some(now)
    ensures d.hardwareVersion == (if Truthy(hw) then hw else None)
  {
    Device(id, DeviceName(serial), serial, Some(serial), if Truthy(hw) then hw else None,
           None, Pending, Some(now), None, None)
  }

  /** The row of a known, not active serial after re-provisioning: back to
      PENDING with a new provisioning time, and a new hardware version only
      when one is given; its farm and its secret stay. */
  function Reprovisioned(d: Device, hw: Option<string>, now: int): (d': Device)
    ensures d' == d.(hardwareVersion := d'.hardwareVersion, status := Pending, provisionedAt := Some(now))
    ensures d'.hardwareVersion == if Truthy(hw) then hw else d.hardwareVersion
  {
    d.(hardwareVersion := if Truthy(hw) then hw else d.hardwareVersion, status := Pending, provisionedAt := Some(now))
  }

  /** `generatePairingToken`. */
  function NewPairingToken(serial: string, bytes: seq<byte>, now: int): (t: PairingToken)
    requires |bytes| == SecretBytes
    ensures t.serial == serial && !t.used && t.expiresAt == now + 86_400_000
    ensures |t.token| == 64 && forall k :: 0 <= k < |t.token| ==> IsLowerHex(t.token[k])
  {
    PairingToken(Secret(bytes), serial, now + PairingTokenLifetime, false)
  }

  /** The request is refused before anything is written: no serial, a
      hardware version that is given but invalid, or an active device. */
  predicate RefusedUpFront(devs: seq<Device>, serial: Option<string>, hw: Option<string>) {
    !Truthy(serial)
    || (Truthy(hw) && !IsValidHardwareVersion(hw.value))
    || (var at := DeviceBySerial(devs, serial.value); at.Some? && devs[at.value].status == Active)
  }

  /** The first write of `handleProvisionRequest`: validate, then create or
      update the device row as PENDING and save it. `None` is a request
      refused before anything is written; otherwise the directory after the
      save and the saved row. */
  function DeviceSave(devs: seq<Device>, serial: Option<string>, hw: Option<string>, now: int,
                      newId: string): (r: Option<(seq<Device>, Device)>)
    ensures RefusedUpFront(devs, serial, hw) ==> r.None?
    ensures r.Some? ==> Truthy(serial) && r.value.1.serial == serial && r.value.1.status == Pending
  {
    if RefusedUpFront(devs, serial, hw) then None
    else
      var s := serial.value;
      var at := DeviceBySerial(devs, s);
      var d := if at.None? then NewDevice(newId, s, hw, now) else Reprovisioned(devs[at.value], hw, now);
      if !CanSave(devs, at, d) then None else Some((Saved(devs, at, d), d))
  }

  /** `handleProvisionRequest`: save the device row, then insert a new
      pairing token. The device save and the token insert are separate
      writes: when the token insert fails (the serial already has a token
      row, or the token value collides) the device row stays saved and the
      request returns `None`. */
  function ProvisionRequest(st: Store, serial: Option<string>, hw: Option<string>, now: int,
                            newId: string, secret: seq<byte>): (step: ProvisionStep)
    requires |secret| == SecretBytes
    ensures step.result.Some? ==> Truthy(serial) && step.result.value.serial == serial
    ensures RefusedUpFront(st.devices, serial, hw) ==> step == ProvisionStep(st, None)
  {
    match DeviceSave(st.devices, serial, hw, now, newId)
    case None => ProvisionStep(st, None)
    case Some((devs, d)) =>
      var t := NewPairingToken(serial.value, secret, now);
      if !TokenInsertOk(st.tokens, t) then ProvisionStep(Store(devs, st.tokens), None)
      else ProvisionStep(Store(devs, st.tokens + [t]), Some(ProvisionResult(d.id, d.serial, t.token, t.expiresAt)))
  }

  /** `pairDevice`: the six checks in order, each with its own error, then
      the device update and the token marked used. */
  function PairDevice(st: Store, serial: string, farmId: string, pairingToken: string, now: int,
                      secret: seq<byte>): (step: PairStep)
    requires |secret| == SecretBytes
    ensures step.result.Err? ==> step.store == st
  {
    var at := DeviceBySerial(st.devices, serial);
    if at.None? then PairStep(st, Err(DeviceNotFound))
    else
      var d := st.devices[at.value];
      if d.status != Pending && d.status != Paired then PairStep(st, Err(CannotPair(d.status)))
      else
        var tk := TokenBySerial(st.tokens, serial);
        if tk.None? then PairStep(st, Err(NoPairingToken))
        else
          var t := st.tokens[tk.value];
          if t.used then PairStep(st, Err(TokenAlreadyUsed))
          else if now > t.expiresAt then PairStep(st, Err(TokenExpired))
          else if t.token != pairingToken then PairStep(st, Err(InvalidPairingToken))
          else
            var secretHex := Secret(secret);
            var d' := d.(farmId := Some(farmId), deviceToken := Some(secretHex), status := Paired, pairedAt := Some(now));
            PairStep(Store(st.devices[at.value := d'], st.tokens[tk.value := t.(used := true)]),
                     Ok(PairResult(d.id, d.serial, secretHex, Paired)))
  }

  /** `unpairDevice`: from any status back to PENDING without farm or secret. */
  function Unpair(st: Store, deviceId: string): (r: (Store, Result<Device, RegenerateError>))
    ensures r.1.Err? <==> DeviceById(st.devices, deviceId).None?
    ensures r.1.Err? ==> r.1 == Err(NotFound) && r.0 == st
    ensures r.1.Ok? ==> r.1.value.status == Pending && r.1.value.farmId.None? && r.1.value.deviceToken.None?
    ensures r.1.Ok? ==>
              var k := DeviceById(st.devices, deviceId).value;
              r.1.value == st.devices[k].(farmId := None, deviceToken := None, status := Pending)
              && r.0.tokens == st.tokens && |r.0.devices| == |st.devices| && r.0.devices[k] == r.1.value
              && forall j :: 0 <= j < |st.devices| && j != k ==> r.0.devices[j] == st.devices[j]
  {
    var at := DeviceById(st.devices, deviceId);
    if at.None? then (st, Err(NotFound))
    else
      var d := st.devices[at.value].(farmId := None, deviceToken := None, status := Pending);
      (st.(devices := st.devices[at.value := d]), Ok(d))
  }

  /** `regenerateDeviceToken`: only a PAIRED or ACTIVE device gets a new
      secret; its status is kept. */
  function Regenerate(st: Store, deviceId: string, secret: seq<byte>): (r: (Store, Result<string, RegenerateError>))
    requires |secret| == SecretBytes
    ensures r.1.Err? ==> r.0 == st
  {
    var at := DeviceById(st.devices, deviceId);
    if at.None? then (st, Err(NotFound))
    else
      var d := st.devices[at.value];
      if d.status != Paired && d.status != Active then (st, Err(CannotRegenerate(d.status)))
      else
        var secretHex := Secret(secret);
        (st.(devices := st.devices[at.value := d.(deviceToken := Some(secretHex))]), Ok(secretHex))
  }

  /** `getPairingStatus`: a read-only projection; an empty farm id reads as null. */
  function GetPairingStatus(st: Store, serial: string): (r: Result<PairingStatus, RegenerateError>)
    ensures r.Err? <==> forall k :: 0 <= k < |st.devices| ==> st.devices[k].serial != Some(serial)
    ensures r.Ok? ==> r.value.serial == Some(serial) && (r.value.farmId.Some? ==> r.value.farmId.value != "")
    ensures r.Ok? ==>
              var d := st.devices[DeviceBySerial(st.devices, serial).value];
              r.value.deviceId == d.id && r.value.status == d.status && r.value.provisionedAt == d.provisionedAt
              && r.value.pairedAt == d.pairedAt && (Truthy(d.farmId) ==> r.value.farmId == d.farmId)
              && (!Truthy(d.farmId) ==> r.value.farmId.None?)
  {
    var at := DeviceBySerial(st.devices, serial);
    if at.None? then Err(NotFound)
    else
      var d := st.devices[at.value];
      Ok(PairingStatus(d.id, d.serial, d.status, if Truthy(d.farmId) then d.farmId else None,
                       d.provisionedAt, d.pairedAt))
  }

  /** `device/{id}/provision/resp`: a device-scoped topic, from which the
      bridge reads the device id back. */
  function ProvisionResponseTopic(deviceId: string): (t: string)
    ensures Topics.Sep !in deviceId && deviceId != "" ==> Topics.ExtractDeviceId(t) == deviceId
  {
    var t := "device/" + deviceId + "/provision/resp";
    assert t == "device/" + deviceId + "/" + "provision/resp";
    assert Topics.Sep !in deviceId && deviceId != "" ==> Topics.ExtractDeviceId(t) == deviceId by {
      if Topics.Sep !in deviceId && deviceId != "" {
        Topics.ExtractsDeviceLevel(deviceId, "provision/resp");
      }
    }
    t
  }

  /** `farm/{farmId}/device/{id}/cmd`: five levels naming the farm and the
      device; being farm-scoped, the bridge reads no device id from it. */
  function SetOwnerTopic(farmId: string, deviceId: string): (t: string)
    ensures Topics.Sep !in farmId && Topics.Sep !in deviceId ==>
              Topics.Levels(t) == ["farm", farmId, "device", deviceId, "cmd"]
    ensures Topics.ExtractDeviceId(t) == "unknown"
  {
    var t := "farm/" + farmId + "/device/" + deviceId + "/cmd";
    assert t == "farm" + "/" + farmId + "/" + "device" + "/" + deviceId + "/" + "cmd";
    assert Topics.Sep !in farmId && Topics.Sep !in deviceId ==>
             Topics.Levels(t) == ["farm", farmId, "device", deviceId, "cmd"] by {
      if Topics.Sep !in farmId && Topics.Sep !in deviceId {
        Topics.LevelsOfFive("farm", farmId, "device", deviceId, "cmd");
      }
    }
    assert t == "farm/" + (farmId + "/device/" + deviceId + "/cmd");
    Topics.FarmTopicIsUnknown(farmId + "/device/" + deviceId + "/cmd");
    t
  }

  function ProvisionResponse(token: string, stamp: string): Json {
    map["status" := JStr("provisioned"), "token" := JStr(token),
        "message" := JStr("Device provisioned. Ready for pairing."), "timestamp" := JStr(stamp)]
  }

  function SetOwnerCommand(userId: string, deviceToken: string, stamp: string): Json {
    map["cmd" := JStr("set_owner"), "ownerId" := JStr(userId), "token" := JStr(deviceToken),
        "timestamp" := JStr(stamp)]
  }

  class ProvisionService {
    var devices: seq<Device>
    var tokens: seq<PairingToken>
    const mqtt: Mqtt.MqttService

    constructor(devices: seq<Device>, tokens: seq<PairingToken>, mqtt: Mqtt.MqttService)
      ensures this.devices == devices && this.tokens == tokens && this.mqtt == mqtt
    {
      this.devices := devices;
      this.tokens := tokens;
      this.mqtt := mqtt;
    }

    /** `handleProvisionRequest`; the response publish is attempted only on
        success and its failure is swallowed. */
    method HandleProvisionRequest(serial: Option<string>, hw: Option<string>, now: int, newId: string,
                                  secret: seq<byte>, stamp: string, answer: PublishOutcome)
      returns (result: Option<ProvisionResult>)
      requires |secret| == SecretBytes
      modifies this, mqtt
      ensures var step := ProvisionRequest(old(Store(devices, tokens)), serial, hw, now, newId, secret);
              Store(devices, tokens) == step.store && result == step.result
      ensures mqtt.registry == old(mqtt.registry)
      ensures mqtt.published == old(mqtt.published)
                                + if result.Some? then [Mqtt.Publication(ProvisionResponseTopic(result.value.deviceId),
                                                                         ProvisionResponse(result.value.pairingToken, stamp),
                                                                         Mqtt.AtLeastOnce)]
                                  else []
    {
      var saved := DeviceSave(devices, serial, hw, now, newId);
      if saved.None? {
        return None;
      }
      devices := saved.value.0;
      result := IssueToken(saved.value.1, serial.value, secret, now, stamp, answer);
    }

    /** The second write of a provisioning request: the token row, and then
        the response on the device's topic. */
    method IssueToken(device: Device, s: string, secret: seq<byte>, now: int, stamp: string, answer: PublishOutcome)
      returns (result: Option<ProvisionResult>)
      requires |secret| == SecretBytes
      modifies this, mqtt
      ensures var t := NewPairingToken(s, secret, now);
              if TokenInsertOk(old(tokens), t) then
                tokens == old(tokens) + [t] && result == Some(ProvisionResult(device.id, device.serial, t.token, t.expiresAt))
              else
                tokens == old(tokens) && result.None?
      ensures devices == old(devices)
      ensures mqtt.registry == old(mqtt.registry)
      ensures mqtt.published == old(mqtt.published)
                                + if result.Some? then [Mqtt.Publication(ProvisionResponseTopic(device.id),
                                                                         ProvisionResponse(result.value.pairingToken, stamp),
                                                                         Mqtt.AtLeastOnce)]
                                  else []
    {
      var token := NewPairingToken(s, secret, now);
      if !TokenInsertOk(tokens, token) {
        return None;
      }
      tokens := tokens + [token];
      var _ := mqtt.PublishToTopic(ProvisionResponseTopic(device.id), ProvisionResponse(token.token, stamp), answer);
      return Some(ProvisionResult(device.id, device.serial, token.token, token.expiresAt));
    }

    /** `pairDevice`; errors are thrown to the caller. The set-owner publish
        follows a successful update and its failure is swallowed. */
    method Pair(userId: string, serial: string, farmId: string, pairingToken: string, now: int,
                secret: seq<byte>, stamp: string, answer: PublishOutcome)
      returns (result: Result<PairResult, PairError>)
      requires |secret| == SecretBytes
      modifies this, mqtt
      ensures var step := PairDevice(old(Store(devices, tokens)), serial, farmId, pairingToken, now, secret);
              Store(devices, tokens) == step.store && result == step.result
      ensures mqtt.registry == old(mqtt.registry)
      ensures mqtt.published == old(mqtt.published)
                                + if result.Ok? then [Mqtt.Publication(SetOwnerTopic(farmId, result.value.deviceId),
                                                                       SetOwnerCommand(userId, result.value.deviceToken, stamp),
                                                                       Mqtt.AtLeastOnce)]
                                  else []
    {
      var at := DeviceBySerial(devices, serial);
      if at.None? {
        return Err(DeviceNotFound);
      }
      var device := devices[at.value];
      if device.status != Pending && device.status != Paired {
        return Err(CannotPair(device.status));
      }
      var tk := TokenBySerial(tokens, serial);
      if tk.None? {
        return Err(NoPairingToken);
      }
      var record := tokens[tk.value];
      if record.used {
        return Err(TokenAlreadyUsed);
      }
      if now > record.expiresAt {
        return Err(TokenExpired);
      }
      if record.token != pairingToken {
        return Err(InvalidPairingToken);
      }
      var deviceToken := Secret(secret);
      devices := devices[at.value := device.(farmId := Some(farmId), deviceToken := Some(deviceToken),
                                             status := Paired, pairedAt := Some(now))];
      tokens := tokens[tk.value := record.(used := true)];
      var _ := mqtt.PublishToTopic(SetOwnerTopic(farmId, device.id), SetOwnerCommand(userId, deviceToken, stamp), answer);
      return Ok(PairResult(device.id, device.serial, deviceToken, Paired));
    }

    /** `unpairDevice`. */
    method UnpairDevice(deviceId: string) returns (result: Result<Device, RegenerateError>)
      modifies this
      ensures var r := Unpair(old(Store(devices, tokens)), deviceId);
              Store(devices, tokens) == r.0 && result == r.1
    {
      var at := DeviceById(devices, deviceId);
      if at.None? {
        return Err(NotFound);
      }
      var device := devices[at.value];
      device := device.(farmId := None);
      device := device.(deviceToken := None);
      device := device.(status := Pending);
      devices := devices[at.value := device];
      return Ok(device);
    }

    /** `regenerateDeviceToken`. */
    method RegenerateDeviceToken(deviceId: string, secret: seq<byte>) returns (result: Result<string, RegenerateError>)
      requires |secret| == SecretBytes
      modifies this
      ensures var r := Regenerate(old(Store(devices, tokens)), deviceId, secret);
              Store(devices, tokens) == r.0 && result == r.1
    {
      var at := DeviceById(devices, deviceId);
      if at.None? {
        return Err(NotFound);
      }
      var device := devices[at.value];
      if device.status != Paired && device.status != Active {
        return Err(CannotRegenerate(device.status));
      }
      var newToken := Secret(secret);
      device := device.(deviceToken := Some(newToken));
      devices := devices[at.value := device];
      return Ok(newToken);
    }
  }

  // ------------------------------------------------------------ properties

  /** A new serial that is accepted gets a PENDING row with no farm and no
      secret, the serial as imei, and a one-day unused token. */
  lemma NewSerialProvisioned(st: Store, serial: string, hw: Option<string>, now: int, newId: string, secret: seq<byte>)
    requires |secret| == SecretBytes
    requires DeviceBySerial(st.devices, serial).None?
    requires ProvisionRequest(st, Some(serial), hw, now, newId, secret).result.Some?
    ensures var step := ProvisionRequest(st, Some(serial), hw, now, newId, secret);
            var d := step.store.devices[|step.store.devices| - 1];
            |step.store.devices| == |st.devices| + 1 && step.store.devices[..|st.devices|] == st.devices
            && d.id == newId && d.status == Pending && d.farmId.None? && d.deviceToken.None?
            && d.imei == serial && d.name == "Device-" + SliceLast(serial, 8)
            && d.hardwareVersion == (if Truthy(hw) then hw else None)
            && step.store.tokens == st.tokens + [PairingToken(step.result.value.pairingToken, serial, now + 86_400_000, false)]
            && step.result.value.deviceId == newId && step.result.value.expiresAt == now + 86_400_000
  {
    var d := NewDevice(newId, serial, hw, now);
    var t := NewPairingToken(serial, secret, now);
    var step := ProvisionRequest(st, Some(serial), hw, now, newId, secret);
    assert !RefusedUpFront(st.devices, Some(serial), hw);
    assert CanSave(st.devices, None, d) && TokenInsertOk(st.tokens, t);
    assert step == ProvisionStep(Store(st.devices + [d], st.tokens + [t]),
                                 Some(ProvisionResult(newId, Some(serial), t.token, t.expiresAt)));
    assert (st.devices + [d])[..|st.devices|] == st.devices;
  }

  /** Re-provisioning a known, not active device changes only its status,
      its provisioning time and, when given, its hardware version: the farm
      and the device secret are kept, so a PENDING device may still hold a
      secret. */
  lemma ReprovisionKeepsSecret(st: Store, serial: string, hw: Option<string>, now: int, newId: string, secret: seq<byte>)
    requires |secret| == SecretBytes
    requires !RefusedUpFront(st.devices, Some(serial), hw)
    requires DeviceBySerial(st.devices, serial).Some?
    requires ProvisionRequest(st, Some(serial), hw, now, newId, secret).store != st
    ensures var k := DeviceBySerial(st.devices, serial).value;
            var step := ProvisionRequest(st, Some(serial), hw, now, newId, secret);
            var d := st.devices[k];
            step.store.devices == st.devices[k := d.(status := Pending, provisionedAt := Some(now),
                                                     hardwareVersion := if Truthy(hw) then hw else d.hardwareVersion)]
            && step.store.devices[k].deviceToken == d.deviceToken && step.store.devices[k].farmId == d.farmId
  {
  }

  /** A serial that already has a token row cannot be provisioned again: the
      device row is saved as PENDING, the token insert fails and the request
      returns `None`; the old token row is left as it was. */
  lemma ReprovisionWithTokenRowFails(st: Store, serial: string, hw: Option<string>, now: int, newId: string, secret: seq<byte>)
    requires |secret| == SecretBytes
    requires TokenBySerial(st.tokens, serial).Some?
    ensures var step := ProvisionRequest(st, Some(serial), hw, now, newId, secret);
            step.result.None? && step.store.tokens == st.tokens
  {
    var t := NewPairingToken(serial, secret, now);
    var k := TokenBySerial(st.tokens, serial).value;
    assert !TokenInsertOk(st.tokens, t) by {
      assert st.tokens[k].serial == t.serial;
    }
  }

  /** The device save keeps the unique keys of the device table. */
  lemma DeviceSaveKeepsUnique(devs: seq<Device>, serial: Option<string>, hw: Option<string>, now: int, newId: string)
    requires DevicesUnique(devs)
    ensures var r := DeviceSave(devs, serial, hw, now, newId);
            r.Some? ==> DevicesUnique(r.value.0)
  {
    if !RefusedUpFront(devs, serial, hw) {
      var s := serial.value;
      var at := DeviceBySerial(devs, s);
      var d := if at.None? then NewDevice(newId, s, hw, now) else Reprovisioned(devs[at.value], hw, now);
      if CanSave(devs, at, d) {
        SavePreservesUnique(devs, at, d);
      }
    }
  }

  /** Provisioning keeps every unique key of both tables. */
  lemma ProvisionKeepsStoreValid(st: Store, serial: Option<string>, hw: Option<string>, now: int, newId: string, secret: seq<byte>)
    requires |secret| == SecretBytes && st.Valid()
    ensures ProvisionRequest(st, serial, hw, now, newId, secret).store.Valid()
  {
    DeviceSaveKeepsUnique(st.devices, serial, hw, now, newId);
    if DeviceSave(st.devices, serial, hw, now, newId).Some? {
      var t := NewPairingToken(serial.value, secret, now);
      if TokenInsertOk(st.tokens, t) {
        TokenInsertKeepsUnique(st.tokens, t);
      }
    }
  }

  /** Any pairing failure leaves both tables as they were, and the failures
      are tried in the order the code checks them. */
  lemma PairFailureOrder(st: Store, serial: string, farmId: string, pairingToken: string, now: int, secret: seq<byte>)
    requires |secret| == SecretBytes
    ensures var step := PairDevice(st, serial, farmId, pairingToken, now, secret);
            var at := DeviceBySerial(st.devices, serial);
            var tk := TokenBySerial(st.tokens, serial);
            var pairable := at.Some? && st.devices[at.value].status in {Pending, Paired};
            (step.result == Err(DeviceNotFound) <==> at.None?)
            && ((step.result.Err? && step.result.error.CannotPair?) <==> at.Some? && !pairable)
            && (at.Some? && !pairable ==> step.result == Err(CannotPair(st.devices[at.value].status)))
            && (step.result == Err(NoPairingToken) <==> pairable && tk.None?)
            && (step.result == Err(TokenAlreadyUsed) <==> pairable && tk.Some? && st.tokens[tk.value].used)
            && (step.result == Err(TokenExpired) <==>
                  pairable && tk.Some? && !st.tokens[tk.value].used && now > st.tokens[tk.value].expiresAt)
            && (step.result == Err(InvalidPairingToken) <==>
                  pairable && tk.Some? && !st.tokens[tk.value].used && now <= st.tokens[tk.value].expiresAt
                  && st.tokens[tk.value].token != pairingToken)
            && (step.result.Ok? <==>
                  pairable && tk.Some? && !st.tokens[tk.value].used && now <= st.tokens[tk.value].expiresAt
                  && st.tokens[tk.value].token == pairingToken)
            && (step.result.Err? ==> step.store == st)
  {
  }

  /** A token is still accepted at its expiry instant. */
  lemma TokenAcceptedAtExpiry(st: Store, serial: string, farmId: string, now: int, secret: seq<byte>)
    requires |secret| == SecretBytes
    requires DeviceBySerial(st.devices, serial).Some?
    requires st.devices[DeviceBySerial(st.devices, serial).value].status == Pending
    requires TokenBySerial(st.tokens, serial).Some?
    requires var t := st.tokens[TokenBySerial(st.tokens, serial).value]; !t.used && t.expiresAt == now
    ensures PairDevice(st, serial, farmId, st.tokens[TokenBySerial(st.tokens, serial).value].token, now, secret).result.Ok?
  {
  }

  /** A provisioned serial can be paired with the token it was sent, at any
      time up to its expiry, and the device ends PAIRED in the farm with the
      returned secret. */
  lemma {:induction false} ProvisionThenPair(st: Store, serial: string, hw: Option<string>, now: int, newId: string,
                                             secret: seq<byte>, farmId: string, later: int, secret2: seq<byte>)
    requires |secret| == SecretBytes && |secret2| == SecretBytes && st.Valid()
    requires ProvisionRequest(st, Some(serial), hw, now, newId, secret).result.Some?
    requires later <= now + PairingTokenLifetime
    ensures var p := ProvisionRequest(st, Some(serial), hw, now, newId, secret);
            var q := PairDevice(p.store, serial, farmId, p.result.value.pairingToken, later, secret2);
            var at := DeviceBySerial(q.store.devices, serial);
            q.result.Ok? && q.result.value.deviceToken == Secret(secret2) && at.Some?
            && q.store.devices[at.value].status == Paired && q.store.devices[at.value].farmId == Some(farmId)
            && q.store.devices[at.value].deviceToken == Some(Secret(secret2))
  {
    var p := ProvisionRequest(st, Some(serial), hw, now, newId, secret);
    ProvisionKeepsStoreValid(st, Some(serial), hw, now, newId, secret);
    ProvisionedRows(st, serial, hw, now, newId, secret);
    PairRedeemsToken(p.store, serial, farmId, p.result.value.pairingToken, later, secret2);
  }

  /** After a successful provisioning request the serial's device row is
      PENDING and its token row is unused, carries the returned token and
      expires one day later. */
  lemma ProvisionedRows(st: Store, serial: string, hw: Option<string>, now: int, newId: string, secret: seq<byte>)
    requires |secret| == SecretBytes && st.Valid()
    requires ProvisionRequest(st, Some(serial), hw, now, newId, secret).result.Some?
    ensures var p := ProvisionRequest(st, Some(serial), hw, now, newId, secret);
            var at := DeviceBySerial(p.store.devices, serial);
            var tk := TokenBySerial(p.store.tokens, serial);
            at.Some? && p.store.devices[at.value].status == Pending
            && tk.Some? && !p.store.tokens[tk.value].used
            && p.store.tokens[tk.value].token == p.result.value.pairingToken
            && p.store.tokens[tk.value].expiresAt == now + PairingTokenLifetime
  {
    var p := ProvisionRequest(st, Some(serial), hw, now, newId, secret);
    SavedRowFound(st.devices, serial, hw, now, newId);
    var t := NewPairingToken(serial, secret, now);
    assert p.store.tokens == st.tokens + [t];
    ProvisionKeepsStoreValid(st, Some(serial), hw, now, newId, secret);
    TokenSerialLookupUnique(p.store.tokens, serial, |st.tokens|);
  }

  /** After the device save, the serial finds the saved row. */
  lemma SavedRowFound(devs: seq<Device>, serial: string, hw: Option<string>, now: int, newId: string)
    requires DevicesUnique(devs)
    requires DeviceSave(devs, Some(serial), hw, now, newId).Some?
    ensures var r := DeviceSave(devs, Some(serial), hw, now, newId).value;
            var at := DeviceBySerial(r.0, serial);
            at.Some? && r.0[at.value] == r.1
  {
    var r := DeviceSave(devs, Some(serial), hw, now, newId).value;
    DeviceSaveKeepsUnique(devs, Some(serial), hw, now, newId);
    var at := DeviceBySerial(devs, serial);
    var k := if at.None? then |devs| else at.value;
    assert r.0[k] == r.1;
    SerialLookupUnique(r.0, serial, k);
  }

  /** Redeeming an unused, unexpired, matching token on a PENDING or PAIRED
      device succeeds: the serial then finds the device PAIRED in the farm
      with the returned secret and the pairing time, its token row is marked
      used, and no other row of either table changes. */
  lemma PairRedeemsToken(st: Store, serial: string, farmId: string, pairingToken: string, now: int, secret: seq<byte>)
    requires |secret| == SecretBytes && st.Valid()
    requires var at := DeviceBySerial(st.devices, serial);
             at.Some? && st.devices[at.value].status in {Pending, Paired}
    requires var tk := TokenBySerial(st.tokens, serial);
             tk.Some? && !st.tokens[tk.value].used && now <= st.tokens[tk.value].expiresAt
             && st.tokens[tk.value].token == pairingToken
    ensures var q := PairDevice(st, serial, farmId, pairingToken, now, secret);
            var at := DeviceBySerial(q.store.devices, serial);
            q.result.Ok? && q.result.value.deviceToken == Secret(secret) && at.Some?
            && at == DeviceBySerial(st.devices, serial)
            && q.store.devices[at.value] == st.devices[at.value].(farmId := Some(farmId), deviceToken := Some(Secret(secret)),
                                                                  status := Paired, pairedAt := Some(now))
            && |q.store.devices| == |st.devices|
            && (forall j :: 0 <= j < |st.devices| && j != at.value ==> q.store.devices[j] == st.devices[j])
    ensures var q := PairDevice(st, serial, farmId, pairingToken, now, secret);
            var tk := TokenBySerial(st.tokens, serial).value;
            TokenBySerial(q.store.tokens, serial) == Some(tk)
            && q.store.tokens[tk] == st.tokens[tk].(used := true)
            && |q.store.tokens| == |st.tokens|
            && (forall j :: 0 <= j < |st.tokens| && j != tk ==> q.store.tokens[j] == st.tokens[j])
  {
    var k := DeviceBySerial(st.devices, serial).value;
    var tk := TokenBySerial(st.tokens, serial).value;
    var q := PairDevice(st, serial, farmId, pairingToken, now, secret);
    KeysKept(st.devices, q.store.devices, k);
    SerialLookupUnique(q.store.devices, serial, k);
    TokensKept(st.tokens, q.store.tokens, tk);
    TokenSerialLookupUnique(q.store.tokens, serial, tk);
  }

  /** Changing only one token row's `used` flag keeps the unique keys. */
  lemma TokensKept(toks: seq<PairingToken>, toks': seq<PairingToken>, k: nat)
    requires TokensUnique(toks) && k < |toks| && toks' == toks[k := toks[k].(used := true)]
    ensures TokensUnique(toks')
  {
    forall i, j | 0 <= i < j < |toks'|
      ensures toks'[i].serial != toks'[j].serial && toks'[i].token != toks'[j].token
    {
      assert toks'[i].serial == toks[i].serial && toks'[j].serial == toks[j].serial;
      assert toks'[i].token == toks[i].token && toks'[j].token == toks[j].token;
    }
  }

  /** Changing one row's non-key columns keeps the unique keys. */
  lemma KeysKept(devs: seq<Device>, devs': seq<Device>, k: nat)
    requires DevicesUnique(devs) && k < |devs| && |devs'| == |devs|
    requires forall i :: 0 <= i < |devs| && i != k ==> devs'[i] == devs[i]
    requires devs'[k].id == devs[k].id && devs'[k].imei == devs[k].imei && devs'[k].serial == devs[k].serial
    ensures DevicesUnique(devs')
  {
    forall i, j | 0 <= i < j < |devs'|
      ensures devs'[i].id != devs'[j].id && devs'[i].imei != devs'[j].imei
              && (devs'[i].serial.Some? ==> devs'[i].serial != devs'[j].serial)
    {
      assert devs'[i].id == devs[i].id && devs'[j].id == devs[j].id;
      assert devs'[i].imei == devs[i].imei && devs'[j].imei == devs[j].imei;
      assert devs'[i].serial == devs[i].serial && devs'[j].serial == devs[j].serial;
    }
  }

  lemma TokenSerialLookupUnique(toks: seq<PairingToken>, serial: string, k: nat)
    requires TokensUnique(toks) && k < |toks| && toks[k].serial == serial
    ensures TokenBySerial(toks, serial) == Some(k)
  {
  }

  /** Once a token is redeemed, pairing again with it fails as used. */
  lemma {:induction false} PairTwiceFails(st: Store, serial: string, farmId: string, pairingToken: string, now: int,
                                          secret: seq<byte>, farmId2: string, later: int, secret2: seq<byte>)
    requires |secret| == SecretBytes && |secret2| == SecretBytes && st.Valid()
    requires PairDevice(st, serial, farmId, pairingToken, now, secret).result.Ok?
    ensures var q := PairDevice(st, serial, farmId, pairingToken, now, secret).store;
            PairDevice(q, serial, farmId2, pairingToken, later, secret2).result == Err(TokenAlreadyUsed)
  {
    var q := PairDevice(st, serial, farmId, pairingToken, now, secret).store;
    var at := DeviceBySerial(st.devices, serial).value;
    var tk := TokenBySerial(st.tokens, serial).value;
    KeysKept(st.devices, q.devices, at);
    SerialLookupUnique(q.devices, serial, at);
    TokensKept(st.tokens, q.tokens, tk);
    TokenSerialLookupUnique(q.tokens, serial, tk);
  }

  /** After unpairing, the device reads as PENDING with no farm. */
  lemma UnpairThenStatus(st: Store, deviceId: string)
    requires DeviceById(st.devices, deviceId).Some?
    requires var d := st.devices[DeviceById(st.devices, deviceId).value]; d.serial.Some? && DevicesUnique(st.devices)
    ensures var d := st.devices[DeviceById(st.devices, deviceId).value];
            var s := GetPairingStatus(Unpair(st, deviceId).0, d.serial.value);
            s.Ok? && s.value.status == Pending && s.value.farmId.None? && s.value.deviceId == deviceId
  {
    var k := DeviceById(st.devices, deviceId).value;
    var q := Unpair(st, deviceId).0;
    KeysKept(st.devices, q.devices, k);
    SerialLookupUnique(q.devices, st.devices[k].serial.value, k);
  }

  /** Regenerating a secret keeps the status and is refused for PENDING and
      DISABLED devices. */
  lemma RegenerateKeepsStatus(st: Store, deviceId: string, secret: seq<byte>)
    requires |secret| == SecretBytes
    ensures var r := Regenerate(st, deviceId, secret);
            var at := DeviceById(st.devices, deviceId);
            (r.1.Ok? <==> at.Some? && st.devices[at.value].status in {Paired, Active})
            && (r.1.Ok? ==>
                  r.0.devices[at.value].status == st.devices[at.value].status
                  && r.0.devices[at.value].deviceToken == Some(r.1.value)
                  && |r.1.value| == 64)
  {
  }
}
