# qs-farm back end: a verified model of its decision logic

This project models the parts of the qs-farm NestJS back end that make decisions. Each part is stated in Dafny and proved against its own specification.

- **Threshold engine.** Each sensor reading is judged against its configuration's thresholds, critical ones first. A per-device latch for each action and a 30-second cooldown per device and sensor type suppress repeated alerts. Each firing records an alert and, unless the action is alert-only, publishes a command and logs it.
- **Telemetry path.** Payload fields become readings and one sample is stored per reading. A per-device configuration cache with a 60-second lifetime serves the configurations. The configuration and threshold CRUD drops the owning device's cache entry. Alerts can be acknowledged, and manually sent commands are logged.
- **Provisioning and pairing.** This covers device rows and one-day pairing tokens: provisioning, pairing with its ordered error checks, unpairing, regenerating the device secret and the pairing status.
- **MQTT bridge.** Topic-filter matching with `+` and `#` (close to section 4.7 of MQTT Version 3.1.1), the device id read from a topic, the filter-to-callbacks registry and its dispatch, and QoS 1 command publication.
- **Sync service.** The four handler registrations, the forwarding of status, telemetry and provisioning messages to WebSocket rooms, and the success/failure contract of sending a command.
- **WebSocket gateway.** Admission by token version, the socket-to-user registry, per-user targeting and room names.
- **Broker access control.** Device and user authentication, and the ACL rules for devices and users.
- **Schedules.** Input rules, target and field validation, create/update/remove/toggle, the firing rule for one-time and recurring schedules, duplicate-minute suppression, the re-entrancy flag, and execution against a device or a farm.
- **Credentials.** Sign-up, sign-in, password checks, access-token renewal gated by the token version, password change, and the single-use OTP/reset-token flow.
- **Uploads.** Choosing the file name and building the stored path, plus the two lookups.

## How the model is built

Services whose fields or tables change are classes. Their tables are `seq` fields and their in-memory maps are `map` fields. Each method is proved equal to a pure function of the old state, and the properties are lemmas about those functions.

Anything the code does not decide for itself is a parameter:

- the clock, random draws and generated ids;
- bcrypt hashing and comparison, and JWT signing and verification;
- the broker's answer to a publish;
- the time-zone decomposition of an instant (`Intl.DateTimeFormat`), which may reject a zone;
- ISO time stamps.

Broker publications and socket emits are appended to logs, which the contracts describe.

Files:

- `common.dfy`: Option, Result, JSON values, publish outcomes.
- `strings.dfy`: split/join, decimal and hex rendering, lower-casing.
- `topics.dfy`, `mqtt.dfy`, `sync.dfy`, `gateway.dfy`: the MQTT bridge, the sync service and the WebSocket gateway.
- `devices.dfy`, `provision.dfy`: device and token tables, provisioning and pairing.
- `emqx.dfy`: broker access control.
- `sensor_entities.dfy`, `threshold.dfy`, `sensor.dfy`: sensor tables, the threshold engine and the sensor service.
- `schedule_dto.dfy`, `schedule.dfy`: schedule input rules and the schedule service.
- `auth.dfy`, `files.dfy`: credentials and uploads.

## Model

| member | source | states |
|---|---|---|
| Topics.TopicMatchesPattern | src/device/mqtt/mqtt.service.ts:134-149 | the loop's answer equals the level-wise reference match: equal strings match, `#` accepts the rest, `+` accepts one level, otherwise the level counts must agree |
| Topics.NoMatchPastBadLevel | src/device/mqtt/mqtt.service.ts:143-145 | a literal filter level that differs from the topic, or lies past its end, with no `#` before it, rules out a match |
| Topics.NoHashNoMatch | src/device/mqtt/mqtt.service.ts:148 | without `#`, a topic whose level count differs from the filter's is not matched |
| Topics.PlusAdmitsAnyLevel | src/device/mqtt/mqtt.service.ts:142 | the level under a `+` never changes the verdict, including an empty level |
| Topics.HashMatchesRemainder | src/device/mqtt/mqtt.service.ts:141 | a `#` matches whatever follows once the levels before it are admitted |
| Topics.WithoutHash | src/device/mqtt/mqtt.service.ts:140-148 | a filter with no `#` matches iff the level counts agree and every non-`+` level is equal |
| Topics.DeviceFilterSelects | src/device/mqtt/mqtt.service.ts:134-149 | `device/+/{kind}` selects `device/{id}/{kind}` for every id without '/' |
| Topics.HashSelectsParentAndChildren | src/device/mqtt/mqtt.service.ts:140-141 | `a/#` selects `a/b` and also `a` itself |
| Topics.PlusCountsLevels | src/device/mqtt/mqtt.service.ts:148 | `a/+/+` does not select `a/b` |
| Topics.PlusBeforeHashNeedsNoLevel | src/device/mqtt/mqtt.service.ts:140-143 | `a/+/#` selects `a`, because the loop skips `+` before looking at the topic length |
| Topics.DeviceFilterSelectsOnlyItsKind | src/device/mqtt/mqtt.service.ts:134-149 | `device/+/{kind2}` selects a device's `{kind}` topic iff the kinds agree |
| Topics.ExtractDeviceId | src/device/mqtt/mqtt.service.ts:151-160 | the result is "unknown" or the whole second level of a `device/...` topic: non-empty, free of slashes, and followed by a slash or the end of the topic |
| Topics.UnknownOutsideDeviceLevel | src/device/mqtt/mqtt.service.ts:151-160 | a topic outside `device/`, or one whose second level is empty or missing, yields "unknown" |
| Topics.ExtractsDeviceLevel | src/device/mqtt/mqtt.service.ts:153-156 | `device/{id}/{rest}` yields `id` for a non-empty id without '/' |
| Topics.FarmTopicIsUnknown | src/device/mqtt/mqtt.service.ts:155-159 | a `farm/...` topic always yields "unknown" |
| Topics.FirstLevelFixed | src/device/mqtt/mqtt.service.ts:134-149 | a filter whose first level is a literal only selects topics with that first level |
| Mqtt.Register | src/device/mqtt/mqtt.service.ts:167-172 | the registry stays well formed and the filter's callback list ends with the new callback |
| Mqtt.RegisterKeepsOthers | src/device/mqtt/mqtt.service.ts:167-172 | every other filter keeps its list, and an existing filter keeps its earlier callbacks in front of the new one |
| Mqtt.MqttService.OnMessage | src/device/mqtt/mqtt.service.ts:167-172 | the registry becomes `Register` of the old one; nothing is published |
| Mqtt.SelectedMembers | src/device/mqtt/mqtt.service.ts:112-116 | a callback receives a message iff a filter it is registered under is `*` or matches the topic |
| Mqtt.RegisterAddsOneDelivery | src/device/mqtt/mqtt.service.ts:110-116 | registering a callback adds exactly one invocation of it for each topic the filter selects and none elsewhere, and keeps every other invocation |
| Mqtt.RegisterExisting | src/device/mqtt/mqtt.service.ts:168-171 | the same, for a filter already registered |
| Mqtt.RegisterNew | src/device/mqtt/mqtt.service.ts:168-171 | the same, for a filter registered for the first time |
| Mqtt.RegisterSplits | src/device/mqtt/mqtt.service.ts:167-172 | registering under an existing filter changes only that filter's block of selected callbacks, by appending the new one when the filter selects the topic |
| Mqtt.PrefixSplits | src/device/mqtt/mqtt.service.ts:110-116 | the callbacks a message reaches are those of the earlier filters followed by those of the later ones, in key order |
| Mqtt.MqttService.HandleMessage | src/device/mqtt/mqtt.service.ts:95-128 | the invocations are the selected callbacks, each given the same message; none when the payload does not parse |
| Mqtt.CommandTopic | src/device/mqtt/mqtt.service.ts:203 | the command topic starts with `device/{id}/` |
| Mqtt.CommandTopicNamesDevice | src/device/mqtt/mqtt.service.ts:151-160 | the device id read back from a command topic is the device's own |
| Mqtt.CommandPayload | src/device/mqtt/mqtt.service.ts:204-208 | the envelope has exactly the fields command, data and timestamp |
| Mqtt.MqttService.PublishToTopic | src/device/mqtt/mqtt.service.ts:177-194 | one QoS 1 publication is appended; the outcome is the broker's answer |
| Mqtt.MqttService.PublishToDevice | src/device/mqtt/mqtt.service.ts:202-211 | the command envelope is appended on `device/{id}/cmd`; the outcome is the broker's answer |
| Gateway.RoomName | src/device/websocket/device.gateway.ts:89 | a device's room is `device:` followed by the device id |
| Gateway.RoomIsolation | src/device/websocket/device.gateway.ts:84-165 | a socket that joined only device a's room receives none of device b's room broadcasts |
| Gateway.SubscribedSocketReceives | src/device/websocket/device.gateway.ts:84-151 | a socket that joins a device's room receives that device's next broadcast |
| Gateway.PresentedToken | src/device/websocket/device.gateway.ts:36 | the handshake's `auth.token` wins when non-empty; with neither source there is no token |
| Gateway.Admit | src/device/websocket/device.gateway.ts:34-72 | admitted iff a token is present, verifies, names a known user and carries that user's token version; refused for no token iff the token is missing or empty |
| Gateway.RefusalDisconnects | src/device/websocket/device.gateway.ts:38-71 | every refused connection ends in a disconnect; an admitted one is never disconnected |
| Gateway.DeviceGateway.HandleConnection | src/device/websocket/device.gateway.ts:34-72 | the socket is registered to the user exactly when admitted, and the emits follow the decision |
| Gateway.DeviceGateway.HandleDisconnect | src/device/websocket/device.gateway.ts:74-78 | only this socket's entry is removed |
| Gateway.DeviceGateway.Subscribe | src/device/websocket/device.gateway.ts:83-98 | the socket joins the device's room and the reply names the device and the room |
| Gateway.DeviceGateway.Unsubscribe | src/device/websocket/device.gateway.ts:103-118 | the socket leaves the device's room and the reply names the device |
| Gateway.DeviceGateway.SendCommand | src/device/websocket/device.gateway.ts:123-139 | the command is only acknowledged as `commandQueued`; nothing is sent |
| Gateway.DeviceGateway.BroadcastDeviceData | src/device/websocket/device.gateway.ts:144-153 | one `deviceData` emit to the device's room with `{deviceId, data, timestamp}` |
| Gateway.DeviceGateway.BroadcastDeviceStatus | src/device/websocket/device.gateway.ts:158-167 | one `deviceStatus` emit to the device's room with `{deviceId, status, timestamp}` |
| Gateway.SocketsOf | src/device/websocket/device.gateway.ts:173-175 | a socket is targeted iff it is registered to the user |
| Gateway.RoomEnvelope | src/device/websocket/device.gateway.ts:146-150 | the envelope has exactly the device id, the payload under its key and the timestamp |
| Gateway.DeviceGateway.SendToUser | src/device/websocket/device.gateway.ts:172-180 | one emit to exactly the sockets registered to the user |
| Gateway.DeviceGateway.Broadcast | src/device/websocket/device.gateway.ts:185-187 | one emit to every connected client |
| Gateway.AdmittedSocketIsTargeted | src/device/websocket/device.gateway.ts:173-175 | after admission the socket receives its user's messages and no other user's; after disconnect it receives none |
| Gateway.DisconnectKeepsOthers | src/device/websocket/device.gateway.ts:74-78 | a disconnect changes no other socket's targeting |
| Sync.DeviceFilter | src/device/sync/sync.service.ts:34-39 | the registered device filter is `device/+/{kind}` |
| Sync.FarmDeviceFilter | src/device/sync/sync.service.ts:44 | the farm-scoped filter is `farm/+/device/+/{kind}` and starts with `f` |
| Sync.Wire | src/device/sync/sync.service.ts:27-49 | the registry after the four registrations stays well formed |
| Sync.SyncService.Setup | src/device/sync/sync.service.ts:19-49 | the registry becomes the four registrations in order, the response handler under the corrected `device/+/resp` filter; nothing is published |
| Sync.WireShape | src/device/sync/sync.service.ts:29-46 | on an empty registry the wiring gives four filters, each with exactly its one handler |
| Sync.DeviceMessagesReachTheirHandler | src/device/sync/sync.service.ts:34-41 | a `device/{id}/status` or `device/{id}/telemetry` message reaches exactly its own handler |
| Sync.DeviceTopicNotProvision | src/device/sync/sync.service.ts:29 | a device topic never reaches the provisioning handler |
| Sync.DeviceTopicKind | src/device/sync/sync.service.ts:34-39 | a device filter of one kind selects a device topic iff the kinds agree |
| Sync.DeliveredFirstLevel | src/device/mqtt/mqtt.service.ts:58-93 | every topic the bridge's subscriptions let through starts with `provision` or `device` |
| Sync.ResponseHandlerNeverRunsAsWritten | src/device/sync/sync.service.ts:44-46 | as written, no subscribed topic ever reaches the response handler |
| Sync.AsWrittenFilterLosesDeviceId | src/device/sync/sync.service.ts:44 | as written, a topic the farm filter does select would carry device id "unknown" |
| Sync.ResponsesReachHandler | src/device/sync/sync.service.ts:44-46 | registered under `device/+/resp`, every device's response reaches the response handler |
| Sync.StatusBody | src/device/sync/sync.service.ts:85-94 | the status body is the payload's fields plus `receivedAt`, which wins over a payload field of that name |
| Sync.SyncService.HandleDeviceStatus | src/device/sync/sync.service.ts:85-94 | one `deviceStatus` emit to the device's room with the status body |
| Sync.TypedBody | src/device/sync/sync.service.ts:104-123 | the body is `type`, then the payload's fields, then `receivedAt`; a payload `type` field overrides the given type |
| Sync.SyncService.HandleDeviceTelemetry | src/device/sync/sync.service.ts:99-109 | one `deviceData` emit to the device's room with the `telemetry` body |
| Sync.SyncService.HandleDeviceResponse | src/device/sync/sync.service.ts:114-124 | one `deviceStatus` emit with the `commandResponse` body |
| Sync.FieldString | src/device/sync/sync.service.ts:60-65 | a payload field is read as a string exactly when the payload is an object holding a string under that key |
| Sync.HardwareField | src/provision/provision.service.ts:39-42 | a truthy `hw` that is not a string is refused, since it has no length to pass the hardware-version check; otherwise `hw` is read as a string field |
| Sync.ProvisionedBody | src/device/sync/sync.service.ts:71-75 | the broadcast body has exactly deviceId, serial and timestamp |
| Sync.SyncService.HandleProvisioningMessage | src/device/sync/sync.service.ts:54-80 | a refused `hw` gives null and changes no table, log or client; otherwise the provisioning request runs on the store and its reply is published; only a result leads to one `deviceProvisioned` broadcast |
| Sync.CommandStatus | src/device/sync/sync.service.ts:136-155 | `commandSent` without an error after a publish, `commandFailed` with the broker's message after a failure |
| Sync.CommandReply | src/device/sync/sync.service.ts:142-157 | the call succeeds iff the broker accepted the publish; a failure passes the error on |
| Sync.SyncService.SendCommandToDevice | src/device/sync/sync.service.ts:129-159 | one publish on the device's command topic, one status to its room, and the reply above |
| Sync.SyncService.BroadcastDeviceListUpdate | src/device/sync/sync.service.ts:171-175 | one `deviceListUpdated` broadcast to every client |
| Devices.DeviceBySerial | src/provision/provision.service.ts:46-48 | finds a row with that serial, or reports that no row has it |
| Devices.DeviceById | src/provision/provision.service.ts:193 | finds the row with that id, or reports that none has it |
| Devices.TokenBySerial | src/provision/provision.service.ts:121-123 | finds the token row of that serial, or reports that none has it |
| Devices.SerialLookupUnique | src/device/entities/device.entity.ts:34-35 | with the unique serial key, the lookup finds the one row that has the serial |
| Devices.Saved | src/provision/provision.service.ts:73 | an update keeps the row count; an insert adds one row |
| Devices.SavePreservesUnique | src/device/entities/device.entity.ts:22-35 | a save the database accepts keeps the id, imei and serial keys unique |
| Provision.Secret | src/provision/provision.service.ts:278-280 | a secret is 64 lower-case hex digits, from 32 random bytes |
| Provision.DeviceName | src/provision/provision.service.ts:62 | the name is `Device-` followed by the serial's last eight characters, or the whole serial when shorter |
| Provision.NewDevice | src/provision/provision.service.ts:58-66 | a new row is PENDING, has no farm, secret or pairing time, uses the serial as imei, and stores the hardware version only when one is given |
| Provision.Reprovisioned | src/provision/provision.service.ts:67-71 | a known row changes only its status to PENDING, its provisioning time and, when one is given, its hardware version |
| Provision.NewPairingToken | src/provision/provision.service.ts:264-276 | an unused token of 64 hex digits for the serial, expiring 24 hours later |
| Provision.DeviceSave | src/provision/provision.service.ts:27-73 | a missing serial, an invalid hardware version or an active device saves nothing; a saved row has the requested serial and is PENDING |
| Provision.DeviceSaveKeepsUnique | src/provision/provision.service.ts:57-73 | saving the row keeps serials unique in the device table |
| Provision.ProvisionRequest | src/provision/provision.service.ts:27-93 | a missing serial, an invalid hardware version or an active device changes nothing and gives null; a result always names the requested serial |
| Provision.ProvisionService.HandleProvisionRequest | src/provision/provision.service.ts:27-93 | the tables become those of `ProvisionRequest`; only a success publishes the provision response on `device/{id}/provision/resp` |
| Provision.NewSerialProvisioned | src/provision/provision.service.ts:57-88 | a new serial gets exactly one new PENDING row and one unused one-day token, and the result returns that token and the new id |
| Provision.ReprovisionKeepsSecret | src/provision/provision.service.ts:67-71 | re-provisioning keeps the farm and the device secret, so a PENDING device may still hold a secret |
| Provision.ReprovisionWithTokenRowFails | src/provision/provision.service.ts:76-92 | a serial that already has a token row gives null and leaves the token table alone |
| Provision.ProvisionKeepsStoreValid | src/provision/provision.service.ts:27-93 | provisioning keeps every unique key of both tables |
| Provision.ProvisionedRows | src/provision/provision.service.ts:73-88 | after success the serial's row is PENDING and its token row is unused, carries the returned token and expires one day later |
| Provision.PairDevice | src/provision/provision.service.ts:98-187 | every pairing error leaves both tables unchanged |
| Provision.ProvisionService.Pair | src/provision/provision.service.ts:98-187 | the tables become those of `PairDevice`; only a success publishes `set_owner` on `farm/{farmId}/device/{id}/cmd` |
| Provision.PairFailureOrder | src/provision/provision.service.ts:105-143 | each of the six errors, and success, happens exactly when its check is the first one to fail (or none fails), in the order the code checks them; a refused device reports its own status; any error changes nothing |
| Provision.TokenAcceptedAtExpiry | src/provision/provision.service.ts:139 | a token is still accepted at its expiry instant |
| Provision.PairRedeemsToken | src/provision/provision.service.ts:145-182 | an unused, unexpired, matching token on a PENDING or PAIRED device pairs it: the row becomes PAIRED in the farm with the returned secret and the pairing time, the token row is marked used, and every other row of both tables is unchanged |
| Provision.ProvisionThenPair | src/provision/provision.service.ts:27-187 | a provisioned serial can be paired with the token it was sent at any time up to the token's expiry |
| Provision.PairTwiceFails | src/provision/provision.service.ts:132-170 | after a successful pairing, pairing again with the same token fails as already used |
| Provision.Unpair | src/provision/provision.service.ts:192-208 | NotFound iff no row has the id, and then nothing changes; otherwise the found row, and only it, becomes PENDING with no farm and no secret, is returned, and the token table is untouched |
| Provision.ProvisionService.UnpairDevice | src/provision/provision.service.ts:192-208 | the tables and the reply are those of `Unpair` |
| Provision.UnpairThenStatus | src/provision/provision.service.ts:192-208 | after unpairing, the pairing status reads PENDING with no farm |
| Provision.Regenerate | src/provision/provision.service.ts:213-237 | a refusal changes nothing |
| Provision.ProvisionService.RegenerateDeviceToken | src/provision/provision.service.ts:213-237 | the tables and the reply are those of `Regenerate` |
| Provision.RegenerateKeepsStatus | src/provision/provision.service.ts:220-236 | succeeds iff the device exists and is PAIRED or ACTIVE; the status is kept and the new 64-digit secret is stored |
| Provision.GetPairingStatus | src/provision/provision.service.ts:242-260 | NotFound iff no row has the serial; otherwise the id, serial, status and both times of the found row, and its farm id unless that is empty, which reads as null |
| Provision.IsValidHardwareVersion | src/provision/provision.service.ts:282-285 | a hardware version is valid iff it is non-empty and a row that fits its columns still fits them holding it |
| Provision.ProvisionResponseTopic | src/provision/provision.service.ts:286-301 | the provisioning reply goes to a device topic from which the bridge reads the same device id back |
| Provision.SetOwnerTopic | src/provision/provision.service.ts:306-324 | the set-owner command goes to the five levels farm, farm id, device, device id, cmd; being farm-scoped it yields no device id |
| Emqx.DeviceByIdOrSerial | src/emqx/emqx.service.ts:34-36 | the first row whose id or serial is the username, or none |
| Emqx.Authenticate | src/emqx/emqx.service.ts:27-73 | a `device:` or 36-character username is refused when it is not UUID-shaped, since the lookup then fails; otherwise it is accepted iff its row exists, holds a non-empty secret equal to the password and is not DISABLED; any other username is accepted iff the password verifies as a token whose id is the username |
| Emqx.LookupFails | src/emqx/emqx.service.ts:34-36 | the lookup against the uuid key fails for every `device:` username |
| Emqx.DevicePrefixNeverAuthenticates | src/emqx/emqx.service.ts:33-72 | no `device:{id}` username authenticates, whatever the table and the password |
| Emqx.UsesDeviceAuth | src/emqx/emqx.service.ts:32-33 | every `device:` username and every UUID-shaped one (a device primary key) takes the device path |
| Emqx.CheckUserAcl | src/emqx/emqx.service.ts:134-170 | a user always gets its notifications topic; any other granted topic is a `device/{id}/...` topic of a device in one of the user's farms that mentions cmd, resp, status or telemetry |
| Emqx.NoSecretNoDeviceLogin | src/emqx/emqx.service.ts:38-41 | a device with no stored secret never authenticates |
| Emqx.CheckDeviceAcl | src/emqx/emqx.service.ts:101-128 | a device is only ever granted topics under `device/{id}/` |
| Emqx.DeviceAclExactly | src/emqx/emqx.service.ts:106-127 | `device:{id}` is granted a topic iff the device exists, is not DISABLED and the topic lies under `device/{id}/` |
| Emqx.DeviceNamespacesDisjoint | src/emqx/emqx.service.ts:118 | no topic lies under the namespaces of two different device ids |
| Emqx.DeviceDeniedOutsideItsNamespace | src/emqx/emqx.service.ts:118-127 | no device may use a `provision/` or `farm/` topic, whatever its status |
| Emqx.CheckAcl | src/emqx/emqx.service.ts:79-94 | `device:` usernames are judged by the device rules, all others by the user rules |
| Emqx.NotificationsAlwaysAllowed | src/emqx/emqx.service.ts:140-142 | a user is always granted `user/{id}/notifications` |
| Emqx.UserNeedsOwnership | src/emqx/emqx.service.ts:145-171 | a user is denied every topic of a device that is unknown or not in one of the user's farms |
| Emqx.OwnerMayUseDeviceTopics | src/emqx/emqx.service.ts:148-165 | the owner of a device's farm is granted every `device/{id}/...` topic that mentions cmd, resp, status or telemetry |
| Emqx.BareDeviceIdJudgedAsUser | src/emqx/emqx.service.ts:84-89 | a device that signs in with its bare 36-character id is authenticated as a device but judged by the user rules, which deny its own topics |
| ThresholdEngine.Check | src/sensor/threshold.service.ts:50-69 | a reading crosses a threshold iff it lies below a present lower bound or above a present upper bound; the lower bound is tried first; NaN crosses nothing |
| ThresholdEngine.OfLevel | src/sensor/threshold.service.ts:43-47 | the thresholds of one level, in stored order |
| ThresholdEngine.OfLevelPartition | src/sensor/threshold.service.ts:43-47 | the critical and warning thresholds together are exactly the configuration's thresholds |
| ThresholdEngine.CriticalFirst | src/sensor/threshold.service.ts:43-47 | the sorted list is a permutation of the thresholds with no critical threshold after a warning one |
| ThresholdEngine.FirstViolated | src/sensor/threshold.service.ts:49-69 | the position of a crossed threshold, with no crossed threshold before it; none iff nothing is crossed |
| ThresholdEngine.Latch | src/sensor/threshold.service.ts:200-203 | the action is latched for the device, no other latch changes, and the sensor's cooldown time becomes now |
| ThresholdEngine.CoolingDown | src/sensor/threshold.service.ts:194-198 | a sensor that acted at this instant is cooling down, one that acted 5 min ago or earlier is not, and one that never acted (or at time 0) is not |
| ThresholdEngine.MayDispatch | src/sensor/threshold.service.ts:179-199 | an action may be dispatched iff it is not latched for the device and the device's sensor is not cooling down |
| ThresholdEngine.ActionsOf | src/sensor/threshold.service.ts:212-214 | exactly the actions some threshold names |
| ThresholdEngine.Clear | src/sensor/threshold.service.ts:208-215 | exactly this device's latches for the listed actions are dropped; cooldown times are kept |
| ThresholdEngine.ThresholdService.ShouldDispatch | src/sensor/threshold.service.ts:179-206 | answers no when the action is latched or the sensor's non-zero cooldown time is less than 30 seconds old; a yes latches and restarts the cooldown |
| ThresholdEngine.ThresholdService.ClearStatesForSensor | src/sensor/threshold.service.ts:208-215 | the anti-spam state becomes `Clear` over the configuration's actions |
| ThresholdEngine.Decide | src/sensor/threshold.service.ts:35-177 | quiet iff no threshold is crossed; otherwise the first crossed threshold in critical-first order either fires with its crossing or is blocked |
| ThresholdEngine.DispatchedBody | src/sensor/threshold.service.ts:100-108 | the broadcast carries the command parameters plus `type: command_dispatched` and the command |
| ThresholdEngine.Recorded | src/sensor/threshold.service.ts:86-165 | after a firing exactly one alert row is appended and the anti-spam state is untouched |
| ThresholdEngine.ThresholdService.RecordFiring | src/sensor/threshold.service.ts:86-165 | the logs, publications and emits become those of `Recorded` |
| ThresholdEngine.Fired | src/sensor/threshold.service.ts:72-172 | a firing latches the action, restarts the cooldown and appends one alert |
| ThresholdEngine.Evaluation | src/sensor/threshold.service.ts:35-177 | at most one alert is appended and none is changed; a blocked threshold changes nothing (the loop returns); a quiet reading only clears the latches |
| ThresholdEngine.ThresholdService.Evaluate | src/sensor/threshold.service.ts:35-177 | the state after the call is `Evaluation` of the state before |
| ThresholdEngine.CriticalTakesPriority | src/sensor/threshold.service.ts:42-49 | when a critical threshold is crossed, the threshold acted on is a critical one |
| ThresholdEngine.SameFirstViolated | src/sensor/threshold.service.ts:49-69 | which threshold is acted on depends only on the reading and the configuration, not on the anti-spam state or the clock |
| ThresholdEngine.RepeatAfterFiringIsSilent | src/sensor/threshold.service.ts:185-191 | repeating a firing evaluation with the same reading changes nothing; the pair raises one alert |
| ThresholdEngine.RecoveryRearms | src/sensor/threshold.service.ts:175-215 | after a reading that crosses nothing, the next crossing fires again unless the cooldown runs |
| ThresholdEngine.CooldownHoldsOff | src/sensor/threshold.service.ts:193-198 | for 30 seconds after a firing at a non-zero time no threshold of the same device and sensor type fires; a firing at time 0 starts no cooldown |
| ThresholdEngine.FiringRecords | src/sensor/threshold.service.ts:79-165 | a firing records one alert with the reason code of its direction; `ALERT_ONLY` publishes and logs no command; any other action publishes one command and logs one automated row whose success follows the broker's answer; the last emit is the alert broadcast |
| SensorEntities.PayloadFieldsOnePerType | src/sensor/enums/sensor-type.enum.ts:9-15 | every sensor type is reported by exactly one payload field |
| Sensor.Rank | src/sensor/enums/sensor-type.enum.ts:9-15 | each sensor type sits at one position of the payload mapping, under its own field name |
| Sensor.FieldAt | src/sensor/enums/sensor-type.enum.ts:9-15 | the position of a mapped field's type is that field's position, and the type's field name is that field |
| Sensor.Coerce | src/sensor/sensor.service.ts:77 | `Number(v)` keeps a numeric field's value and turns an object into NaN |
| Sensor.ReadingsUpTo | src/sensor/sensor.service.ts:74-79 | the readings of the first n mapped fields are present fields only, each with its coerced value, in mapping order |
| Sensor.ReadingsCover | src/sensor/sensor.service.ts:74-79 | every present field among the first n is read |
| Sensor.ReadingsExactly | src/sensor/sensor.service.ts:74-79 | a sensor type is read iff its field is present and not null; one reading per type at most, in mapping order, so at most five |
| Sensor.RanksBound | src/sensor/sensor.service.ts:74-79 | readings with strictly increasing positions below n number at most n |
| Sensor.SensorService.ExtractReadings | src/sensor/sensor.service.ts:74-79 | the reading loop yields exactly the payload's readings |
| Sensor.SamplesOf | src/sensor/sensor.service.ts:84-90 | one sample row per reading, in order, with the device, the type and the value |
| Sensor.FirstSelectable | src/sensor/sensor.service.ts:98-103 | the first enabled AUTO configuration of the type, and no such configuration before it; none iff there is none |
| Sensor.ConfigFor | src/sensor/sensor.service.ts:98-104 | a reading is judged by the first enabled AUTO configuration of its type when that one has thresholds; otherwise by none |
| Sensor.EvaluateAll | src/sensor/sensor.service.ts:97-111 | evaluating the readings only appends alerts, at most one per reading |
| Sensor.EvaluateAllAlerts | src/sensor/sensor.service.ts:97-111 | every new alert is for the sending device and for a sensor type that was read and has a configuration |
| Sensor.TelemetryAlertsBounded | src/sensor/sensor.service.ts:68-118 | one telemetry message adds at most five alerts, each for the sending device and for a reported, configured sensor type |
| Sensor.SensorService.EvaluateReadings | src/sensor/sensor.service.ts:97-111 | the evaluation loop leaves the engine's books as the specification function describes; the broker and socket registries stay as they were |
| Sensor.SensorService.ProcessTelemetry | src/sensor/sensor.service.ts:68-118 | a payload with no reading changes nothing; otherwise one sample per reading is stored, the cache is consulted or refilled, and each reading is evaluated against the device's configurations; the configuration table never changes |
| Sensor.ConfigsOf | src/sensor/sensor.service.ts:127-130 | a configuration is loaded for a device iff it is a row of that device |
| Sensor.ConfigsOfAppend | src/sensor/sensor.service.ts:127-130 | loading from a concatenated table concatenates the loads |
| Sensor.ConfigsOfOthers | src/sensor/sensor.service.ts:127-130 | rows of other devices never load for a device |
| Sensor.SpliceKeepsOthers | src/sensor/sensor.service.ts:155-173 | editing or removing one device's row leaves every other device's configurations as they were |
| Sensor.SensorService.GetConfigsForDevice | src/sensor/sensor.service.ts:122-133 | an entry younger than 60 s answers and nothing changes; otherwise the device's rows are loaded and cached with the current time; a coherent cache stays coherent and answers the device's current rows |
| Sensor.CacheHit | src/sensor/sensor.service.ts:123-126 | an entry loaded now answers, one 60 s old or older does not, and a device with no entry misses |
| Sensor.CoherentCacheIsTransparent | src/sensor/sensor.service.ts:122-133 | when every entry holds its device's rows, the cache answers what a load would |
| Sensor.SensorService.InvalidateCache | src/sensor/sensor.service.ts:135-137 | only the device's own entry is dropped |
| Sensor.NewConfig | src/sensor/sensor.service.ts:149 | a new configuration is enabled unless the input disables it, AUTO unless the input says MANUAL, and has no thresholds |
| Sensor.SensorService.CreateConfig | src/sensor/sensor.service.ts:148-153 | a second configuration of the same device and type is refused by the unique key; otherwise the row is appended and the device's cache entry dropped; the cache stays coherent and the keys unique |
| Sensor.ConfigIndex | src/sensor/sensor.service.ts:156-158 | the first row with this id and, when given, this device; none iff there is no such row |
| Sensor.Patched | src/sensor/sensor.service.ts:160 | given fields replace the stored ones; id, device and thresholds stay |
| Sensor.SensorService.UpdateConfig | src/sensor/sensor.service.ts:155-164 | an unknown id for the device is not found; a patch that collides with another row's type is refused; otherwise the row is replaced by the patched one and the device's cache entry dropped, keeping the cache coherent |
| Sensor.SensorService.RemoveConfig | src/sensor/sensor.service.ts:166-173 | an unknown id for the device is not found; otherwise the row goes with its thresholds and the device's cache entry is dropped, keeping the cache coherent |
| Sensor.SensorService.StoreThresholds | src/sensor/sensor.service.ts:193-194 | a configuration's thresholds are replaced and its device's cache entry dropped, keeping the cache coherent |
| Sensor.AsWrittenThresholdNeverFires | src/sensor/sensor.service.ts:189-193 | the row stored from the creation input has neither bound, so no reading ever crosses it |
| Sensor.ThresholdRowAsWritten | src/sensor/sensor.service.ts:189-193 | the row stored from the creation input keeps its id, level and action and has neither bound |
| Sensor.ThresholdRow | src/sensor/sensor.service.ts:189-193 | the stored threshold keeps the input's id, level and action |
| Sensor.CreatedThresholdFires | src/sensor/sensor.service.ts:189-193 | a threshold created with the bound in its proper column is crossed exactly below a lower bound or above an upper one, and reports that bound and direction |
| Sensor.SensorService.CreateThreshold | src/sensor/sensor.service.ts:183-196 | an unknown configuration is not found; a second threshold of the same level is refused; otherwise the threshold is appended to the configuration and its device's cache entry dropped |
| Sensor.ThresholdIndex | src/sensor/sensor.service.ts:203-205 | the first threshold with this id; none iff there is none |
| Sensor.PatchedThreshold | src/sensor/sensor.service.ts:212 | given level and action replace the stored ones; id and bounds stay |
| Sensor.SensorService.UpdateThreshold | src/sensor/sensor.service.ts:198-216 | a threshold not under the configuration is not found; a patch that takes another threshold's level is refused by the unique key; otherwise it is replaced by the patched one and the device's cache entry dropped, keeping the cache coherent |
| Sensor.SensorService.RemoveThreshold | src/sensor/sensor.service.ts:218-230 | a threshold not under the configuration is not found; otherwise it is removed and the device's cache entry dropped |
| Sensor.AlertIndex | src/sensor/sensor.service.ts:302-304 | the first alert with this id and device; none iff there is none |
| Sensor.SensorService.AcknowledgeAlert | src/sensor/sensor.service.ts:301-308 | an alert not of this device is not found; otherwise only its acknowledged flag is set, and the command log is untouched |
| Sensor.ManualLog | src/sensor/sensor.service.ts:315-323 | a manual command row carries the event's device, command, params, outcome and error, source MANUAL, and no sensor type or reason |
| Sensor.SensorService.HandleCommandDispatched | src/sensor/sensor.service.ts:312-328 | exactly one manual command row is appended; the alerts stay as they were |
| ScheduleDto.CreateRulesImplyUpdateRules | src/schedule/dto/update-device-schedule.dto.ts:4-6 | every input valid for creation, sent as an update, is valid for the partial form, which relaxes presence only |
| ScheduleDto.PatchOf | src/schedule/dto/update-device-schedule.dto.ts:4-6 | an optional creation field sent as a patch carries the same value |
| ScheduleDto.ClockRuleIsShapeOnly | src/schedule/dto/create-device-schedule.dto.ts:59-63 | the time rule checks only the shape: it admits "99:99" and refuses "6:00" |
| ScheduleDto.ClockOf | src/schedule/dto/create-device-schedule.dto.ts:59-63 | any hour and minute below 100, written with two digits each, pass the time rule |
| ScheduleDto.IsUuid | src/schedule/dto/create-device-schedule.dto.ts:30-38 | a UUID-shaped id is non-empty and holds no slash, so it names one topic level |
| ScheduleDto.IsClock | src/schedule/dto/create-device-schedule.dto.ts:59-63 | an accepted time is five characters, a colon third, with no other colon on either side |
| ScheduleDto.ValidDays | src/schedule/dto/create-device-schedule.dto.ts:50-57 | an accepted day list is non-empty and each day is 0 (Sunday) to 6 |
| ScheduleDto.ValidCreate | src/schedule/dto/create-device-schedule.dto.ts:20-80 | an accepted creation input has non-empty device and farm ids where given, and a time holding a colon |
| ScheduleDto.ValidUpdate | src/schedule/dto/update-device-schedule.dto.ts:4-6 | an accepted update has non-empty device and farm ids where sent with a value, and such a time holds a colon |
| Schedule.TargetError | src/schedule/schedule.service.ts:84-92 | the target check passes iff exactly one of the two ids is truthy; it fails with a bad request |
| Schedule.FieldsError | src/schedule/schedule.service.ts:94-108 | the field check passes iff a recurring schedule has non-empty days and a time and a one-time schedule has an instant; it fails with a bad request |
| Schedule.Created | src/schedule/schedule.service.ts:48-54 | creation succeeds iff both checks pass, the target error coming first; the stored row is well formed, carries the input's fields, has never run, and is enabled unless the input disables it |
| Schedule.ScheduleService.Create | src/schedule/schedule.service.ts:48-54 | a created row is appended; a refused input leaves the table as it was |
| Schedule.Coalesce | src/schedule/schedule.service.ts:61-62 | `??` takes a sent value and falls back on null or absence alike |
| Schedule.Applied | src/schedule/schedule.service.ts:67-69 | a field left out keeps the stored value, null clears it, a value replaces it |
| Schedule.Preloaded | src/schedule/schedule.service.ts:69 | the preloaded row keeps its id and last run; an update that sends nothing leaves the row unchanged |
| Schedule.UpdatedAsWritten | src/schedule/schedule.service.ts:56-71 | a successful update saves the preloaded row, whatever the target check read |
| Schedule.NullTargetPassesAsWritten | src/schedule/schedule.service.ts:59-69 | clearing a device schedule's device with an explicit null passes the check and saves a row with no target |
| Schedule.Updated | src/schedule/schedule.service.ts:56-71 | an update fails iff a sent target leaves other than exactly one id on the saved row, or the saved row lacks the fields its type needs; a success saves the preloaded row |
| Schedule.NullTargetRefused | src/schedule/schedule.service.ts:59-69 | the corrected update refuses that request with the target error |
| Schedule.UpdateKeepsWellFormed | src/schedule/schedule.service.ts:56-71 | an update of a well-formed row saves a well-formed row |
| Schedule.ScheduleIndex | src/schedule/schedule.service.ts:40-46 | the first row with the id; none iff there is none |
| Schedule.ScheduleService.Update | src/schedule/schedule.service.ts:56-71 | an unknown id is not found; otherwise the corrected update decides, and only a success replaces the row |
| Schedule.ScheduleService.Remove | src/schedule/schedule.service.ts:73-76 | an unknown id is not found; otherwise exactly that row leaves the table and is returned |
| Schedule.Toggled | src/schedule/schedule.service.ts:78-82 | only the enabled flag changes, to its negation |
| Schedule.ToggleTwice | src/schedule/schedule.service.ts:78-82 | toggling twice restores the row, and toggling keeps a row well formed |
| Schedule.ScheduleService.Toggle | src/schedule/schedule.service.ts:78-82 | an unknown id is not found; otherwise the row is replaced by its toggled form |
| Schedule.ShouldExecute | src/schedule/schedule.service.ts:136-174 | a one-time schedule is due iff its instant has passed and it never ran; a recurring one throws iff its zone is rejected, it has no days, or its day matches and it has no time, or it is at its minute and its last run cannot be converted; it is due iff its day and its hour and minute match the local clock and it did not already run in that local minute |
| Schedule.WellFormedDecides | src/schedule/schedule.service.ts:136-174 | the check never throws on a row with the fields its type needs, in a zone the clock accepts |
| Schedule.ClockReads | src/schedule/schedule.service.ts:153 | a valid `HH:mm` reads as two numbers below 100 that write back to the same text |
| Schedule.ClockRoundTrip | src/schedule/schedule.service.ts:153 | writing an hour and a minute as `HH:mm` and reading them back gives them again |
| Schedule.OutOfRangeTimeNeverDue | src/schedule/schedule.service.ts:151-154 | a time such as "25:00" or "07:75", which the input rule admits, is never due |
| Schedule.Mark | src/schedule/schedule.service.ts:238-242 | a run records its instant and switches a one-time schedule off; nothing else changes |
| Schedule.NoRepeatWithinMinute | src/schedule/schedule.service.ts:156-171 | once run, a recurring schedule is not due again in the same local minute |
| Schedule.OneTimeRunsOnce | src/schedule/schedule.service.ts:136-143 | a one-time schedule that ran is never due again and is switched off |
| Schedule.FarmDevices | src/schedule/schedule.service.ts:216 | the devices of a farm are exactly the table's devices with that farm |
| Schedule.Commands | src/schedule/schedule.service.ts:209-229 | one command publication per target device |
| Schedule.Statuses | src/schedule/schedule.service.ts:209-229 | one room status per target device |
| Schedule.ScheduleService.SendToEach | src/schedule/schedule.service.ts:217-229 | the farm loop publishes one command per device in order and leaves one status per device, whatever each device answers |
| Schedule.Executed | src/schedule/schedule.service.ts:205-243 | a device schedule whose publish fails is left as it was; a farm schedule, or a device schedule whose publish succeeds, is marked as run |
| Schedule.ScheduleService.Execute | src/schedule/schedule.service.ts:205-243 | only the executed row changes, as the specification function says, and the sends are logged |
| Schedule.ScheduleService.SendOne | src/schedule/schedule.service.ts:217-229 | one more device of the farm gets the command and its status broadcast, appended after the earlier devices'; subscriptions and clients are unchanged |
| Schedule.Halt | src/schedule/schedule.service.ts:117-130 | the tick reaches every row before the first enabled row whose check throws, and stops at that one |
| Schedule.SteppedUpTo | src/schedule/schedule.service.ts:124-128 | stepping keeps the table's length |
| Schedule.Tick | src/schedule/schedule.service.ts:117-128 | a tick keeps the table's length |
| Schedule.SteppedOneMore | src/schedule/schedule.service.ts:124-128 | stepping one more row extends the stepped prefix by one |
| Schedule.TickChangesOnlyDueRows | src/schedule/schedule.service.ts:117-128 | a tick changes a row only if it reached it and the row was due, and then only by running it |
| Schedule.WellFormedTableRunsThrough | src/schedule/schedule.service.ts:117-128 | in a table of well-formed rows whose zones the clock accepts, no check throws and the tick reaches every row |
| Schedule.UnknownZoneStopsTick | src/schedule/schedule.service.ts:117-133 | an enabled recurring row in a zone the clock rejects throws: the tick stops at or before it and leaves it and every later row unchanged |
| Schedule.TickRunsEveryDueRow | src/schedule/schedule.service.ts:117-128 | every due row the tick reaches and whose send succeeds is marked as run |
| Schedule.LogsStep | src/schedule/schedule.service.ts:124-128 | one more row appends that row's publications and statuses to the logs |
| Schedule.HaltStep | src/schedule/schedule.service.ts:117-130 | a throwing row is where the tick stops; every other reached row lies before it |
| Schedule.ScheduleService.RunRow | src/schedule/schedule.service.ts:124-128 | one row of the tick steps that row and appends its publications and statuses |
| Schedule.ScheduleService.RunTick | src/schedule/schedule.service.ts:117-130 | the table after the loop is the tick of the old table, and the logs hold the due rows' publications and statuses up to the halt |
| Schedule.ScheduleService.ProcessSchedules | src/schedule/schedule.service.ts:112-134 | a tick while another runs changes nothing; otherwise the table becomes its tick and the running flag is cleared again |
| Auth.TokensFor | src/auth/auth.service.ts:236-250 | both tokens are signed over the same id and version, the access token with the access key and the refresh token with the refresh key |
| Auth.UserByName | src/user/user.service.ts:39-43 | a user with that username; none iff no user has it |
| Auth.UserById | src/user/user.service.ts:27-37 | the first user with that id; none iff no user has it |
| Auth.SignUpThenValidate | src/auth/auth.service.ts:30-85 | a user who signs up can then log in with the password the stored hash accepts |
| Auth.UserByNameLast | src/user/user.service.ts:39-43 | a username new to the table is found at the row just appended |
| Auth.AuthService.SignUp | src/auth/auth.service.ts:30-53 | a taken username gives null and changes nothing; otherwise one user is appended with the hashed password, the default avatar unless one is given, admin only if asked, version 0, and its tokens at version 0 are returned |
| Auth.AuthService.SignIn | src/auth/auth.service.ts:55-68 | tokens are issued iff the username exists, for that user at its current version |
| Auth.Validate | src/auth/auth.service.ts:70-85 | an unknown username is not found; a known one is returned iff the password matches its hash, and refused with "Incorrect password" otherwise |
| Auth.AuthService.ValidateUser | src/auth/auth.service.ts:70-85 | the method decides as the specification function does |
| Auth.RenewedAccess | src/auth/auth.service.ts:107-123 | a new access token is issued iff the refresh token verifies, names an existing user and carries that user's current version; it is signed over the claimed id and version |
| Auth.AuthService.UpdateAccessToken | src/auth/auth.service.ts:107-123 | the method renews as the specification function does |
| Auth.IssuedRefreshRenews | src/auth/auth.service.ts:107-123 | a refresh token issued to a user renews to the access token issued beside it while the user's version stands |
| Auth.Rekeyed | src/auth/auth.service.ts:194-200 | the user gets the new hash and the next token version; id and username stay, every other user is unchanged |
| Auth.SameIdAfterRekey | src/auth/auth.service.ts:194-200 | changing a user's password moves no id |
| Auth.RekeyingRevokesOldTokens | src/auth/auth.service.ts:185-234 | after a password change or reset a refresh token of the old version no longer renews, while a token of the new version does |
| Auth.AuthService.ChangePassword | src/auth/auth.service.ts:185-208 | an unknown user is not found; a wrong current password is refused with "Current password is incorrect"; otherwise the user is rekeyed and tokens at the new version are returned; reset records are untouched |
| Auth.Otp | src/auth/auth.service.ts:132 | the code is six decimal digits whose value lies in [100000, 1000000) |
| Auth.AuthService.ForgotPassword | src/auth/auth.service.ts:125-147 | an unknown username is not found; otherwise one unused record is appended with the code's hash, expiring 15 minutes later, and the code is returned |
| Auth.RecordExpiresAfterFifteenMinutes | src/auth/auth.service.ts:135-136 | a new record is pending exactly until fifteen minutes after it was made |
| Auth.LatestPending | src/auth/auth.service.ts:156-163 | the user's unused, unexpired record created last; none iff the user has none |
| Auth.AuthService.VerifyOtp | src/auth/auth.service.ts:149-183 | an unknown username is not found; no pending record is "No valid OTP found"; a wrong code is "Invalid OTP"; otherwise only that record changes, marked used and holding the new reset token |
| Auth.VerifiedRecordIsSpent | src/auth/auth.service.ts:177-180 | a verified record is no longer pending, so its code cannot be verified twice |
| Auth.FreshRecordNotRedeemable | src/auth/auth.service.ts:138-142 | a record whose code was never verified is never accepted by the reset step |
| Auth.RedeemableIndex | src/auth/auth.service.ts:211-217 | the first used, unexpired record holding the reset token; none iff there is none |
| Auth.AuthService.ResetPassword | src/auth/auth.service.ts:210-234 | a token no record accepts is "Invalid or expired reset token"; otherwise the record's user is rekeyed and the record removed |
| Auth.ResetTokenSingleUse | src/auth/auth.service.ts:210-234 | once redeemed, the same reset token is refused |
| Files.WithId | src/files/files.service.ts:23-29 | the row with that id; none iff no row has it |
| Files.FilesService.FindById | src/files/files.service.ts:23-29 | the row found has the id, and null means no row has it |
| Files.WithIds | src/files/files.service.ts:31-37 | a row is returned iff it is in the table and its id is listed |
| Files.FilesService.FindByIds | src/files/files.service.ts:31-37 | exactly the table's rows whose ids are listed |
| Files.StripTrailingSlashes | src/files/files.service.ts:57 | a prefix of the path that does not end in a slash |
| Files.Extension | src/files/files.service.ts:61 | the extension is never empty |
| Files.ExtensionAfterLastDot | src/files/files.service.ts:61 | a name with a dot gets the text after its last dot, with its ASCII letters lower-cased |
| Files.ExtensionWithoutDot | src/files/files.service.ts:61 | a name without a dot is its own extension, with its ASCII letters lower-cased; only the empty name gets `jpg` |
| Files.TrailingDotGivesDefault | src/files/files.service.ts:61 | a name ending in a dot gets `jpg` |
| Files.LastPiece | src/files/files.service.ts:57-61 | the text after the last separator is the last piece of a split |
| Files.ChosenName | src/files/files.service.ts:55-63 | the upload's own name when it has one, else the base name of its path, else a random name with the original's extension |
| Files.BaseName | src/files/files.service.ts:56-58 | the base name of a path holds no slash |
| Files.StoredPath | src/files/files.service.ts:49-51 | the stored path is the prefix `/{apiPrefix}/v1/files/` followed by exactly the chosen name |
| Files.DefaultPrefix | src/files/files.service.ts:49-51 | with no prefix configured, or an empty one, the path starts with `/api/v1/files/` |
| Files.NameFromStoredPath | src/files/files.service.ts:55-68 | the base name of a stored path gives the chosen name back |
| Files.FilesService.Create | src/files/files.service.ts:39-75 | a missing upload is refused with status 422 and `file: selectFile` and nothing is stored; otherwise exactly one row holding the served path is appended and returned |

## Left out

- Database I/O. Every repository call is taken to succeed, apart from the unique-key and not-found outcomes the model states. Connection errors, foreign-key violations and uuid-syntax errors are not modelled, except the failing device lookup of the broker's authentication hook.
- Floating point. Sensor values and threshold bounds are integers, plus a NaN that compares false. AVG/MIN/MAX arithmetic is not modelled.
- Sensor.Coerce: covers `Number(...)` only for numbers, booleans, null, the empty string and strings of decimal digits. Whitespace, signs, decimal points, exponents and hexadecimal strings read as NaN here.
- Schedule.ScheduledAt: inherits the same `Number(...)` approximation for each half of the time.
- The reporting queries of the sensor service are not modelled. They are SQL query builders run by the database. This covers findSensorData, findLatestSensorData, findAlerts, findCommandLogs, the stats, time series and summaries, the farm and system reports, findAllConfigs and findAllThresholds.
- One `now` per call. A service call that reads the clock twice (telemetry cache refill, OTP expiry) sees one instant.
- Concurrency. Every handler runs atomically. Interleavings at `await` points are not modelled, and neither is what the schedule's `executing` flag guards against under them.
- ThresholdEngine: latches are kept as a set of (device, action) pairs rather than a map of maps. The observable latch test is the same.
- src/sensor/dto/update-sensor-threshold.dto.ts and src/sensor/enums/threshold-type.enum.ts are not part of this model. A threshold update carries only the level and the action, and the threshold type is a lower or upper bound kind.
- Sensor.PatchedThreshold: keeps both bounds, because the fields of an update are not known beyond the level and the action.
- MQTT connection management: connect, subscribe, reconnect, `isDeviceConnected` and `disconnect`. Only the list of subscribed filters is kept, as data.
- The telemetry event emitter. The sync service's hand-off to `processTelemetry` is a separate call.
- Socket.io delivery and its order. Emits, joins, leaves and disconnects are recorded in a log, and `sendToUser` targets a set of sockets.
- `isDeviceOnline` and the gateway helpers that only read socket.io state.
- ISO-8601 rendering of instants. Each time stamp is a string parameter.
- The schedule DTO's `IsDateString` syntax. `executeAt` is the instant the string denotes.
- A null sent for a non-nullable schedule column (name, command, params, timezone, enabled) is not modelled.
- Failures of `deviceService.findAll` inside `execute`. The farm's devices are a parameter.
- Each device gives one broker answer per tick.
- The schedule `findAll` and `findOne` queries, beyond the lookup by id.
- `getLocalTime` is a clock parameter. It answers `None` for a zone it rejects, where `Intl.DateTimeFormat` throws a RangeError; which zones are known, and the decomposition itself, are not modelled.
- Bcrypt: salts, cost and hashing are parameters. `compare` is an oracle.
- JWT: signing, secrets and expiry are oracles. `RefreshRoundTrips` states the one property the proofs assume of them.
- The username length limit of the user DTO is not enforced.
- Auth.LatestPending: two pending records with the same creation time resolve to the first row. The database's order for ties is unspecified.
- Auth.RedeemableIndex: `findOne` has no ORDER BY in the source. The model takes the first matching row.
- Auth.AuthService.SignIn: an unknown username makes the code throw a TypeError; the model returns `None` instead.
- Multer disk storage and the download route of the files controller.
- `randomStringGenerator` is a parameter.
- Files.BaseName: follows POSIX `path.basename` for paths without a suffix argument. Windows separators are not modelled. Its contract states only that the result holds no slash; the exact name for a stored upload path is stated by Files.NameFromStoredPath.
- Length limits count characters. `MaxLength` in the source counts UTF-16 code units, so a character outside the Basic Multilingual Plane counts twice there.
- Sync.FieldString: reads a serial only when it is a JSON string. A numeric or boolean serial in a payload is treated as absent.
- Sync.HardwareField: a falsy `hw` that is not a string (`0`, `false`, null) reads as absent. The source would pass it on as the stored hardware version.
- Files.Extension: only the ASCII letters A-Z are lower-cased. JavaScript `toLowerCase()` also maps every other cased letter of Unicode, so an extension such as `ÄVI` keeps its `Ä` here.
- JSON arrays. Payloads, params and bodies are null, booleans, integers, strings and objects. What `Number(...)` gives for an array (`[7]` reads 7, `[]` reads 0) and the index keys an array payload spreads into a status or response body are not modelled.
- Emqx.LookupFails: Postgres also reads a 36-character uuid with its hyphens after other groups of four digits. Such a username counts as a failing lookup here.
- Sync.SyncService.Setup: registers the response handler under the corrected `device/+/resp` filter, the corrected half of the first Findings row. The code as written is Sync.ResponseHandlerNeverRunsAsWritten.
- Sensor.SensorService.CreateThreshold: stores the corrected row of Sensor.ThresholdRow, the corrected half of the second Findings row. The row the code as written stores is Sensor.ThresholdRowAsWritten.
- Schedule.ScheduleService.Update: applies the corrected Schedule.Updated, the corrected half of the third Findings row. The code as written is Schedule.UpdatedAsWritten.
- Controllers, modules, the user, farm and device CRUD services, and the device simulator script are not part of this model.
- `getAllPairingTokens`, `deletePairingToken` and `deleteAllPairingTokens` are called by the provisioning controller but do not exist in the provisioning service. They are not part of this model.

## Findings

| source | as written | input that shows it | evidently intended | confidence | as-written member | corrected member |
|---|---|---|---|---|---|---|
| src/device/sync/sync.service.ts:44 | the response handler is registered under `farm/+/device/+/resp`, but the bridge subscribes only to `device/+/resp` | any `device/{id}/resp` message: it selects no registered filter and the response handler never runs | register the handler under `device/+/resp`, where device responses arrive | high (not executed) | Sync.ResponseHandlerNeverRunsAsWritten | Sync.ResponsesReachHandler |
| src/sensor/sensor.service.ts:189-193 | the threshold row is built by spreading the creation input, whose `type` and `threshold` fields name no column of the threshold table, which keeps its bounds in `minThreshold` and `maxThreshold` | a WARNING threshold created with a lower bound of 10: its min and max columns stay null, and a reading of 0 raises nothing | store the bound in the min or max column its kind names | medium (not executed) | Sensor.AsWrittenThresholdNeverFires | Sensor.CreatedThresholdFires |
| src/schedule/schedule.service.ts:59-69 | the target check reads `dto.deviceId ?? existing.deviceId`, so an explicit null is checked as the stored id, while the saved row clears it | an update `{deviceId: null}` on a device schedule: the check passes and the row is saved with neither a device nor a farm | check the ids the saved row will hold and refuse a row without exactly one target | high (not executed) | Schedule.NullTargetPassesAsWritten | Schedule.NullTargetRefused |
