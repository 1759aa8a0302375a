/** The device directory and the pairing-token store
    (src/device/entities/device.entity.ts, pairing-token.entity.ts): the rows,
    the column limits and unique keys the database enforces on them, and the
    lookups the services perform. Times are milliseconds since the epoch. */
module Devices {

  import opened Common
  import opened Strings

  datatype DeviceStatus = Pending | Paired | Active | Disabled

  /** A `device` row. Nullable columns are `Option`s. */
  datatype Device = Device(
    id: string,
    name: string,
    imei: string,
    serial: Option<string>,
    hardwareVersion: Option<string>,
    deviceToken: Option<string>,
    status: DeviceStatus,
    provisionedAt: Option<int>,
    pairedAt: Option<int>,
    farmId: Option<string>)

  /** A `pairing_token` row; the store holds at most one row per serial and
      per token value. */
  datatype PairingToken = PairingToken(token: string, serial: string, expiresAt: int, used: bool)

  /** The column limits of a device row: name 100, imei 50, serial 100,
      hardware version 50 characters. */
  predicate FitsColumns(d: Device) {
    |d.name| <= 100 && |d.imei| <= 50
    && (d.serial.Some? ==> |d.serial.value| <= 100)
    && (d.hardwareVersion.Some? ==> |d.hardwareVersion.value| <= 50)
  }

  /** The unique keys of the device table (id, imei, serial) hold. */
  ghost predicate DevicesUnique(devs: seq<Device>) {
    forall i, j :: 0 <= i < j < |devs| ==>
      devs[i].id != devs[j].id && devs[i].imei != devs[j].imei
      && (devs[i].serial.Some? ==> devs[i].serial != devs[j].serial)
  }

  /** The unique keys of the token table (serial, token) hold. */
  ghost predicate TokensUnique(toks: seq<PairingToken>) {
    forall i, j :: 0 <= i < j < |toks| ==> toks[i].serial != toks[j].serial && toks[i].token != toks[j].token
  }

  /** The position of the device with this serial. */
  function DeviceBySerial(devs: seq<Device>, serial: string): (r: Option<nat>)
    ensures r.Some? ==> r.value < |devs| && devs[r.value].serial == Some(serial)
    ensures r.None? ==> forall k :: 0 <= k < |devs| ==> devs[k].serial != Some(serial)
  {
    if devs == [] then None
    else if devs[0].serial == Some(serial) then Some(0)
    else match DeviceBySerial(devs[1..], serial)
      case None => None
      case Some(k) => Some(k + 1)
  }

  /** The position of the device with this primary key. */
  function DeviceById(devs: seq<Device>, id: string): (r: Option<nat>)
    ensures r.Some? ==> r.value < |devs| && devs[r.value].id == id
    ensures r.None? ==> forall k :: 0 <= k < |devs| ==> devs[k].id != id
  {
    if devs == [] then None
    else if devs[0].id == id then Some(0)
    else match DeviceById(devs[1..], id)
      case None => None
      case Some(k) => Some(k + 1)
  }

  /** The position of the pairing-token row of this serial. */
  function TokenBySerial(toks: seq<PairingToken>, serial: string): (r: Option<nat>)
    ensures r.Some? ==> r.value < |toks| && toks[r.value].serial == serial
    ensures r.None? ==> forall k :: 0 <= k < |toks| ==> toks[k].serial != serial
  {
    if toks == [] then None
    else if toks[0].serial == serial then Some(0)
    else match TokenBySerial(toks[1..], serial)
      case None => None
      case Some(k) => Some(k + 1)
  }

  /** Under unique serials, the lookup finds the one row with that serial. */
  lemma SerialLookupUnique(devs: seq<Device>, serial: string, k: nat)
    requires DevicesUnique(devs) && k < |devs| && devs[k].serial == Some(serial)
    ensures DeviceBySerial(devs, serial) == Some(k)
  {
  }

  /** Saving row `d` at position `at` (an update) or as a new row would keep
      every column limit and unique key. */
  predicate CanSave(devs: seq<Device>, at: Option<nat>, d: Device) {
    (at.Some? ==> at.value < |devs|)
    && FitsColumns(d)
    && forall k :: 0 <= k < |devs| && Some(k) != at ==>
         devs[k].id != d.id && devs[k].imei != d.imei && (d.serial.Some? ==> devs[k].serial != d.serial)
  }

  /** The table after saving `d` at `at`. */
  function Saved(devs: seq<Device>, at: Option<nat>, d: Device): (devs': seq<Device>)
    requires at.Some? ==> at.value < |devs|
    ensures |devs'| == if at.Some? then |devs| else |devs| + 1
  {
    if at.Some? then devs[at.value := d] else devs + [d]
  }

  /** A save the database accepts keeps the unique keys. */
  lemma SavePreservesUnique(devs: seq<Device>, at: Option<nat>, d: Device)
    requires DevicesUnique(devs) && CanSave(devs, at, d)
    ensures DevicesUnique(Saved(devs, at, d))
  {
    var devs' := Saved(devs, at, d);
    forall i, j | 0 <= i < j < |devs'|
      ensures devs'[i].id != devs'[j].id && devs'[i].imei != devs'[j].imei
              && (devs'[i].serial.Some? ==> devs'[i].serial != devs'[j].serial)
    {
      if at.Some? && i == at.value {
        assert devs'[j] == devs[j];
      } else if at.Some? && j == at.value {
        assert devs'[i] == devs[i];
      } else if at.None? && j == |devs| {
        assert devs'[i] == devs[i];
      }
    }
  }

  /** An insert into the token table fails when the serial or the token
      value is already present. */
  predicate TokenInsertOk(toks: seq<PairingToken>, t: PairingToken) {
    forall k :: 0 <= k < |toks| ==> toks[k].serial != t.serial && toks[k].token != t.token
  }

  /** An insert the token table accepts keeps its unique keys. */
  lemma TokenInsertKeepsUnique(toks: seq<PairingToken>, t: PairingToken)
    requires TokensUnique(toks) && TokenInsertOk(toks, t)
    ensures TokensUnique(toks + [t])
  {
  }
}
