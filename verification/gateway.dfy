/** The client socket gateway (src/device/websocket/device.gateway.ts): the
    admission check of a connecting client, the socket-to-user registry,
    per-user targeting and the `device:{id}` rooms. What the gateway sends is
    recorded in an event log instead of being delivered; token verification
    and the user directory are parameters. */
module Gateway {

  import opened Common
  import opened Strings

  /** Who an emit is addressed to. */
  datatype Target = ToSocket(socketId: string) | ToSockets(socketIds: set<string>) | ToRoom(room: string) | ToAll

  /** One observable effect of the gateway. */
  datatype Effect =
    | Emit(target: Target, event: string, body: Json)
    | Disconnect(socketId: string)
    | Join(socketId: string, room: string)
    | Leave(socketId: string, room: string)

  /** The reply a subscribed-message handler returns to its caller. */
  datatype Reply = Reply(event: string, data: Json)

  /** Why a connection was refused, or the user it was admitted for. */
  datatype Admission = NoToken | Revoked | AuthFailed | Admitted(userId: string)

  /** The room of one device. */
  function RoomName(deviceId: string): (room: string)
    ensures StartsWith(room, "device:") && room[|"device:"|..] == deviceId
  {
    var room := "device:" + deviceId;
    assert room[..|"device:"|] == "device:";
    room
  }

  /** Two devices never share a room. */
  lemma RoomNameInjective(a: string, b: string)
    requires a != b
    ensures RoomName(a) != RoomName(b)
  {
    assert a == RoomName(a)[|"device:"|..];
  }

  /** The token a client presents: the `auth.token` field when it is
      non-empty, otherwise the `authorization` header with its first
      `Bearer ` removed. */
  function PresentedToken(authToken: Option<string>, authorization: Option<string>): (t: Option<string>)
    ensures Truthy(authToken) ==> t == authToken
    ensures !Truthy(authToken) && authorization.None? ==> t.None?
  {
    if Truthy(authToken) then authToken
    else if authorization.Some? then Some(ReplaceFirst(authorization.value, "Bearer ", ""))
    else None
  }

  /** The admission decision of `handleConnection`, in the order the code
      takes it: no token; token does not verify or its user is unknown
      (both end in the catch); token version differs from the user's. */
  function Admit(token: Option<string>, verify: string -> Option<Claims>, versions: map<string, int>): (a: Admission)
    ensures a.Admitted? <==>
              Truthy(token) && verify(token.value).Some?
              && verify(token.value).value.id in versions
              && verify(token.value).value.tokenVersion == Some(versions[verify(token.value).value.id])
    ensures a.Admitted? ==> a.userId == verify(token.value).value.id
    ensures a == NoToken <==> !Truthy(token)
  {
    if !Truthy(token) then NoToken
    else
      match verify(token.value)
      case None => AuthFailed
      case Some(claims) =>
        if claims.id !in versions then AuthFailed
        else if claims.tokenVersion != Some(versions[claims.id]) then Revoked
        else Admitted(claims.id)
  }

  /** The effects of one connection attempt. */
  function ConnectionEffects(socketId: string, a: Admission, stamp: string): seq<Effect> {
    match a
    case NoToken => [Disconnect(socketId)]
    case Revoked =>
      [Emit(ToSocket(socketId), "error", map["message" := JStr("Token has been revoked")]), Disconnect(socketId)]
    case AuthFailed =>
      [Emit(ToSocket(socketId), "error", map["message" := JStr("Authentication failed")]), Disconnect(socketId)]
    case Admitted(_) =>
      [Emit(ToSocket(socketId), "connected",
            map["message" := JStr("Connected to device WebSocket"), "timestamp" := JStr(stamp)])]
  }

  /** Every refused connection ends with the socket disconnected, and an
      admitted one is never disconnected. */
  lemma RefusalDisconnects(socketId: string, a: Admission, stamp: string)
    ensures var es := ConnectionEffects(socketId, a, stamp);
            |es| >= 1 && (!a.Admitted? <==> es[|es| - 1] == Disconnect(socketId))
            && (a.Admitted? ==> Disconnect(socketId) !in es)
  {
  }

  /** The sockets registered to `userId`. */
  function SocketsOf(clients: map<string, string>, userId: string): (ids: set<string>)
    ensures forall s :: s in ids <==> s in clients && clients[s] == userId
  {
    set s | s in clients && clients[s] == userId
  }

  /** The device-room envelope `{deviceId, <key>, timestamp}`. */
  function RoomEnvelope(deviceId: string, key: string, data: JsonValue, stamp: string): (body: Json)
    requires key != "deviceId" && key != "timestamp"
    ensures body.Keys == {"deviceId", key, "timestamp"}
    ensures body["deviceId"] == JStr(deviceId) && body[key] == data && body["timestamp"] == JStr(stamp)
  {
    map["deviceId" := JStr(deviceId), key := data, "timestamp" := JStr(stamp)]
  }

  class DeviceGateway {
    /** `connectedClients`: socket id to user id. */
    var clients: map<string, string>
    /** Everything the gateway has sent, oldest first. */
    var effects: seq<Effect>

    constructor()
      ensures clients == map[] && effects == []
    {
      clients := map[];
      effects := [];
    }

    /** `handleConnection`. */
    method HandleConnection(socketId: string, authToken: Option<string>, authorization: Option<string>,
                            verify: string -> Option<Claims>, versions: map<string, int>, stamp: string)
      returns (a: Admission)
      modifies this
      ensures a == Admit(PresentedToken(authToken, authorization), verify, versions)
      ensures clients == if a.Admitted? then old(clients)[socketId := a.userId] else old(clients)
      ensures effects == old(effects) + ConnectionEffects(socketId, a, stamp)
    {
      var token := PresentedToken(authToken, authorization);
      if !Truthy(token) {
        effects := effects + [Disconnect(socketId)];
        return NoToken;
      }
      var claims := verify(token.value);
      if claims.None? || claims.value.id !in versions {
        effects := effects + [Emit(ToSocket(socketId), "error", map["message" := JStr("Authentication failed")]),
                              Disconnect(socketId)];
        return AuthFailed;
      }
      if claims.value.tokenVersion != Some(versions[claims.value.id]) {
        effects := effects + [Emit(ToSocket(socketId), "error", map["message" := JStr("Token has been revoked")]),
                              Disconnect(socketId)];
        return Revoked;
      }
      clients := clients[socketId := claims.value.id];
      effects := effects + [Emit(ToSocket(socketId), "connected",
                                 map["message" := JStr("Connected to device WebSocket"), "timestamp" := JStr(stamp)])];
      return Admitted(claims.value.id);
    }

    /** `handleDisconnect`: only this socket's entry goes. */
    method HandleDisconnect(socketId: string)
      modifies this
      ensures clients == old(clients) - {socketId}
      ensures effects == old(effects)
    {
      clients := clients - {socketId};
    }

    /** `subscribeToDevice`. */
    method Subscribe(socketId: string, deviceId: string) returns (reply: Reply)
      modifies this
      ensures effects == old(effects) + [Join(socketId, RoomName(deviceId))]
      ensures clients == old(clients)
      ensures reply == Reply("subscribed", map["deviceId" := JStr(deviceId), "room" := JStr(RoomName(deviceId))])
    {
      var room := RoomName(deviceId);
      effects := effects + [Join(socketId, room)];
      reply := Reply("subscribed", map["deviceId" := JStr(deviceId), "room" := JStr(room)]);
    }

    /** `unsubscribeFromDevice`. */
    method Unsubscribe(socketId: string, deviceId: string) returns (reply: Reply)
      modifies this
      ensures effects == old(effects) + [Leave(socketId, RoomName(deviceId))]
      ensures clients == old(clients)
      ensures reply == Reply("unsubscribed", map["deviceId" := JStr(deviceId)])
    {
      effects := effects + [Leave(socketId, RoomName(deviceId))];
      reply := Reply("unsubscribed", map["deviceId" := JStr(deviceId)]);
    }

    /** `sendCommand`: only acknowledged; the command goes nowhere from here. */
    method SendCommand(deviceId: string, command: string, stamp: string) returns (reply: Reply)
      ensures reply.event == "commandQueued"
      ensures reply.data == map["deviceId" := JStr(deviceId), "command" := JStr(command), "timestamp" := JStr(stamp)]
    {
      reply := Reply("commandQueued",
                     map["deviceId" := JStr(deviceId), "command" := JStr(command), "timestamp" := JStr(stamp)]);
    }

    /** `broadcastDeviceData`. */
    method BroadcastDeviceData(deviceId: string, data: JsonValue, stamp: string)
      modifies this
      ensures effects == old(effects) + [Emit(ToRoom(RoomName(deviceId)), "deviceData",
                                              RoomEnvelope(deviceId, "data", data, stamp))]
      ensures clients == old(clients)
    {
      effects := effects + [Emit(ToRoom(RoomName(deviceId)), "deviceData", RoomEnvelope(deviceId, "data", data, stamp))];
    }

    /** `broadcastDeviceStatus`. */
    method BroadcastDeviceStatus(deviceId: string, status: JsonValue, stamp: string)
      modifies this
      ensures effects == old(effects) + [Emit(ToRoom(RoomName(deviceId)), "deviceStatus",
                                              RoomEnvelope(deviceId, "status", status, stamp))]
      ensures clients == old(clients)
    {
      effects := effects + [Emit(ToRoom(RoomName(deviceId)), "deviceStatus",
                                 RoomEnvelope(deviceId, "status", status, stamp))];
    }

    /** `sendToUser`: one emit to exactly the sockets registered to the user. */
    method SendToUser(userId: string, event: string, data: Json)
      modifies this
      ensures effects == old(effects) + [Emit(ToSockets(SocketsOf(clients, userId)), event, data)]
      ensures clients == old(clients)
    {
      effects := effects + [Emit(ToSockets(SocketsOf(clients, userId)), event, data)];
    }

    /** `broadcast`: to every connected client. */
    method Broadcast(event: string, data: Json)
      modifies this
      ensures effects == old(effects) + [Emit(ToAll, event, data)]
      ensures clients == old(clients)
    {
      effects := effects + [Emit(ToAll, event, data)];
    }
  }

  /** After an admitted connection the socket is targeted by `sendToUser`
      for its user and for no one else; after a disconnect, for no one. */
  lemma AdmittedSocketIsTargeted(clients: map<string, string>, socketId: string, userId: string, other: string)
    ensures socketId in SocketsOf(clients[socketId := userId], userId)
    ensures other != userId ==> socketId !in SocketsOf(clients[socketId := userId], other)
    ensures socketId !in SocketsOf(clients - {socketId}, other)
  {
  }

  /** The rooms a socket is in after the effects: a join adds a room, a leave
      removes it and a disconnect empties the socket's rooms. */
  function RoomsAfter(es: seq<Effect>, socketId: string): (rooms: set<string>)
    ensures forall r :: r in rooms ==> exists k :: 0 <= k < |es| && es[k] == Join(socketId, r)
    decreases |es|
  {
    if es == [] then {}
    else
      var pre := es[..|es| - 1];
      var rs := RoomsAfter(pre, socketId);
      assert forall k :: 0 <= k < |pre| ==> es[k] == pre[k];
      match es[|es| - 1]
      case Join(s, room) => if s == socketId then rs + {room} else rs
      case Leave(s, room) => if s == socketId then rs - {room} else rs
      case Disconnect(s) => if s == socketId then {} else rs
      case Emit(_, _, _) => rs
  }

  /** The room emits that reach a socket: those made while it was in the room. */
  function RoomDeliveries(es: seq<Effect>, socketId: string): (ds: seq<Effect>)
    ensures forall k :: 0 <= k < |ds| ==> ds[k] in es && ds[k].Emit? && ds[k].target.ToRoom?
    decreases |es|
  {
    if es == [] then []
    else
      var pre := es[..|es| - 1];
      var e := es[|es| - 1];
      var ds := RoomDeliveries(pre, socketId);
      assert forall k :: 0 <= k < |ds| ==> ds[k] in es by {
        forall k | 0 <= k < |ds| ensures ds[k] in es {
          assert ds[k] in pre;
        }
      }
      ds + if e.Emit? && e.target.ToRoom? && e.target.room in RoomsAfter(pre, socketId) then [e] else []
  }

  /** A socket that joined only device `a`'s room receives none of device
      `b`'s room broadcasts. */
  lemma {:induction false} RoomIsolation(es: seq<Effect>, socketId: string, a: string, b: string)
    requires a != b
    requires forall k :: 0 <= k < |es| && es[k].Join? && es[k].socketId == socketId ==> es[k].room == RoomName(a)
    ensures forall e :: e in RoomDeliveries(es, socketId) ==> e.target != ToRoom(RoomName(b))
    decreases |es|
  {
    if es != [] {
      var pre := es[..|es| - 1];
      assert forall k :: 0 <= k < |pre| ==> pre[k] == es[k];
      RoomIsolation(pre, socketId, a, b);
      RoomNameInjective(a, b);
    }
  }

  /** A socket that subscribes to a device's room receives the next
      broadcast of that device. */
  lemma SubscribedSocketReceives(es: seq<Effect>, socketId: string, deviceId: string, body: Json)
    ensures var es' := es + [Join(socketId, RoomName(deviceId)), Emit(ToRoom(RoomName(deviceId)), "deviceData", body)];
            var ds := RoomDeliveries(es', socketId);
            |ds| >= 1 && ds[|ds| - 1] == Emit(ToRoom(RoomName(deviceId)), "deviceData", body)
  {
    var es1 := es + [Join(socketId, RoomName(deviceId))];
    var es' := es1 + [Emit(ToRoom(RoomName(deviceId)), "deviceData", body)];
    assert es'[..|es'| - 1] == es1;
    assert es1[..|es1| - 1] == es;
  }

  /** Disconnecting one socket leaves every other socket's targeting alone. */
  lemma DisconnectKeepsOthers(clients: map<string, string>, socketId: string, userId: string)
    ensures SocketsOf(clients - {socketId}, userId) == SocketsOf(clients, userId) - {socketId}
  {
  }
}
