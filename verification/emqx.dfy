/** The broker's authentication and access-control hooks
    (src/emqx/emqx.service.ts): read-only decisions over the device
    directory, the farm owners and a JSON Web Token verifier. */
module Emqx {

  import opened Common
  import opened Strings
  import opened Devices
  import ScheduleDto

  /** What a client asks for on a topic: 1 subscribe, 2 publish. The
      decisions below do not depend on it. */
  type Access = int

  const DevicePrefix: string := "device:"

  /** A username is treated as a device's when it has the `device:` prefix
      or the length of a UUID (36). */
  predicate UsesDeviceAuth(username: string)
    ensures StartsWith(username, DevicePrefix) ==> UsesDeviceAuth(username)
    ensures ScheduleDto.IsUuid(username) ==> UsesDeviceAuth(username)
  {
    StartsWith(username, DevicePrefix) || |username| == 36
  }

  /** The first row whose id or serial is `key`. */
  function DeviceByIdOrSerial(devs: seq<Device>, key: string): (r: Option<nat>)
    ensures r.Some? ==> r.value < |devs| && (devs[r.value].id == key || devs[r.value].serial == Some(key))
    ensures r.Some? ==> forall k :: 0 <= k < r.value ==> devs[k].id != key && devs[k].serial != Some(key)
    ensures r.None? ==> forall k :: 0 <= k < |devs| ==> devs[k].id != key && devs[k].serial != Some(key)
  {
    if devs == [] then None
    else if devs[0].id == key || devs[0].serial == Some(key) then Some(0)
    else match DeviceByIdOrSerial(devs[1..], key)
      case None => None
      case Some(k) => Some(k + 1)
  }

  /** The device lookup compares the username with the uuid primary key,
      so the database refuses a username that is not UUID-shaped and the
      surrounding catch answers false. */
  predicate LookupFails(username: string)
    ensures StartsWith(username, DevicePrefix) ==> LookupFails(username)
  {
    assert StartsWith(username, DevicePrefix) ==> username[6] == ':' && !ScheduleDto.IsHexDigit(username[6]);
    !ScheduleDto.IsUuid(username)
  }

  /** `authenticate`: a device presents its secret as password; a user
      presents an access token whose id must equal the username. */
  function Authenticate(devs: seq<Device>, username: string, password: string,
                        verify: string -> Option<Claims>): (ok: bool)
    ensures UsesDeviceAuth(username) && !LookupFails(username) ==>
              (ok <==> var at := DeviceByIdOrSerial(devs, username);
                       at.Some? && devs[at.value].deviceToken == Some(password) && password != ""
                       && devs[at.value].status != Disabled)
    ensures UsesDeviceAuth(username) && LookupFails(username) ==> !ok
    ensures !UsesDeviceAuth(username) ==>
              (ok <==> verify(password).Some? && verify(password).value.id == username)
  {
    if UsesDeviceAuth(username) then
      if LookupFails(username) then false
      else
        var at := DeviceByIdOrSerial(devs, username);
        if at.None? || !Truthy(devs[at.value].deviceToken) then false
        else devs[at.value].deviceToken.value == password && devs[at.value].status != Disabled
    else
      match verify(password)
      case None => false
      case Some(claims) => claims.id == username
  }

  /** `checkDeviceAcl`: the device named by the username with its first
      `device:` removed may use exactly the topics under `device/{id}/`,
      unless it is unknown or DISABLED; everything else, `provision/...`
      included, is denied. */
  function CheckDeviceAcl(devs: seq<Device>, username: string, topic: string, access: Access): (ok: bool)
    ensures ok ==> StartsWith(topic, "device/" + ReplaceFirst(username, DevicePrefix, "") + "/")
  {
    var id := ReplaceFirst(username, DevicePrefix, "");
    var at := DeviceById(devs, id);
    if at.None? || devs[at.value].status == Disabled then false
    else StartsWith(topic, "device/" + id + "/")
  }

  /** `checkUserAcl`: a user may always use its notifications topic, and a
      `device/{id}/...` topic when the device's farm is the user's and the
      topic mentions `cmd`, `resp`, `status` or `telemetry` anywhere. */
  function CheckUserAcl(devs: seq<Device>, farmOwner: map<string, string>, userId: string, topic: string,
                        access: Access): (ok: bool)
    ensures topic == "user/" + userId + "/notifications" ==> ok
    ensures ok && topic != "user/" + userId + "/notifications" ==>
              var parts := Split(topic, '/');
              |parts| >= 2 && parts[0] == "device" && DeviceById(devs, parts[1]).Some?
              && OwnedBy(devs[DeviceById(devs, parts[1]).value], farmOwner, userId)
              && (Contains(topic, "cmd") || Contains(topic, "resp") || Contains(topic, "status") || Contains(topic, "telemetry"))
  {
    if topic == "user/" + userId + "/notifications" then true
    else
      var parts := Split(topic, '/');
      if parts[0] == "device" && |parts| >= 2 then
        var at := DeviceById(devs, parts[1]);
        if at.Some? && OwnedBy(devs[at.value], farmOwner, userId) then
          Contains(topic, "cmd") || Contains(topic, "resp") || Contains(topic, "status") || Contains(topic, "telemetry")
        else false
      else false
  }

  /** The device belongs to a farm of `userId`. */
  predicate OwnedBy(d: Device, farmOwner: map<string, string>, userId: string) {
    d.farmId.Some? && d.farmId.value in farmOwner && farmOwner[d.farmId.value] == userId
  }

  /** `checkAcl`: `device:` usernames go to the device rules, all others to
      the user rules. */
  function CheckAcl(devs: seq<Device>, farmOwner: map<string, string>, username: string, topic: string,
                    access: Access): (ok: bool)
    ensures StartsWith(username, DevicePrefix) ==> ok == CheckDeviceAcl(devs, username, topic, access)
    ensures !StartsWith(username, DevicePrefix) ==> ok == CheckUserAcl(devs, farmOwner, username, topic, access)
  {
    if StartsWith(username, DevicePrefix) then CheckDeviceAcl(devs, username, topic, access)
    else CheckUserAcl(devs, farmOwner, username, topic, access)
  }

  // ------------------------------------------------------------ properties

  /** `device:{id}` is granted the topics under `device/{id}/` of a known,
      enabled device and nothing else. */
  lemma {:induction false} DeviceAclExactly(devs: seq<Device>, id: string, topic: string, access: Access)
    ensures var at := DeviceById(devs, id);
            CheckDeviceAcl(devs, DevicePrefix + id, topic, access)
            <==> at.Some? && devs[at.value].status != Disabled && StartsWith(topic, "device/" + id + "/")
  {
    ReplacePrefix(DevicePrefix + id, DevicePrefix);
    assert (DevicePrefix + id)[|DevicePrefix|..] == id;
  }

  /** Two devices never share a topic: a topic under `device/{a}/` is not
      under `device/{b}/` for another id `b`, when neither contains '/'. */
  lemma DeviceNamespacesDisjoint(a: string, b: string, topic: string)
    requires '/' !in a && '/' !in b && a != b
    requires StartsWith(topic, "device/" + a + "/")
    ensures !StartsWith(topic, "device/" + b + "/")
  {
    var pa := "device/" + a + "/";
    var pb := "device/" + b + "/";
    if StartsWith(topic, pb) {
      if |a| < |b| {
        PrefixChar(pa, topic, 7 + |a|);
        PrefixChar(pb, topic, 7 + |a|);
        assert false;
      } else if |b| < |a| {
        PrefixChar(pa, topic, 7 + |b|);
        PrefixChar(pb, topic, 7 + |b|);
        assert false;
      } else {
        SameLengthSameId(a, b, topic);
        assert false;
      }
    }
  }

  lemma SameLengthSameId(a: string, b: string, topic: string)
    requires |a| == |b| && StartsWith(topic, "device/" + a + "/") && StartsWith(topic, "device/" + b + "/")
    ensures a == b
  {
    var pa := "device/" + a + "/";
    var pb := "device/" + b + "/";
    assert a == pa[7..7 + |a|] == topic[7..7 + |a|] == pb[7..7 + |b|] == b;
  }

  lemma PrefixChar(p: string, s: string, i: nat)
    requires StartsWith(s, p) && i < |p|
    ensures s[i] == p[i]
  {
    assert s[..|p|][i] == p[i];
  }

  /** No device may use a provisioning topic, nor the farm-scoped topic the
      set-owner command is published on. */
  lemma DeviceDeniedOutsideItsNamespace(devs: seq<Device>, username: string, rest: string, access: Access)
    ensures !CheckDeviceAcl(devs, username, "provision/" + rest, access)
    ensures !CheckDeviceAcl(devs, username, "farm/" + rest, access)
  {
    var id := ReplaceFirst(username, DevicePrefix, "");
    var p := "device/" + id + "/";
    assert p[0] == 'd';
    assert ("provision/" + rest)[0] == 'p';
    assert ("farm/" + rest)[0] == 'f';
  }

  /** A user is always granted its own notifications topic. */
  lemma NotificationsAlwaysAllowed(devs: seq<Device>, farmOwner: map<string, string>, userId: string, access: Access)
    requires !StartsWith(userId, DevicePrefix)
    ensures CheckAcl(devs, farmOwner, userId, "user/" + userId + "/notifications", access)
  {
  }

  /** A user is granted a topic of a device only when the device's farm is
      the user's. */
  lemma {:induction false} UserNeedsOwnership(devs: seq<Device>, farmOwner: map<string, string>, userId: string,
                                              id: string, rest: string, access: Access)
    requires '/' !in id
    requires var at := DeviceById(devs, id); at.None? || !OwnedBy(devs[at.value], farmOwner, userId)
    ensures !CheckUserAcl(devs, farmOwner, userId, "device/" + id + "/" + rest, access)
  {
    var topic := "device/" + id + "/" + rest;
    assert topic == "device" + ['/'] + (id + ['/'] + rest);
    SplitHead("device", '/', id + ['/'] + rest);
    SplitHead(id, '/', rest);
    assert topic != "user/" + userId + "/notifications" by {
      assert topic[0] == 'd' && ("user/" + userId + "/notifications")[0] == 'u';
    }
  }

  /** The words that open a device topic to its owner. */
  predicate MentionsDeviceTraffic(s: string) {
    Contains(s, "cmd") || Contains(s, "resp") || Contains(s, "status") || Contains(s, "telemetry")
  }

  /** The owner of a device's farm may use every topic under `device/{id}/`
      that mentions one of the four words. */
  lemma {:induction false} OwnerMayUseDeviceTopics(devs: seq<Device>, farmOwner: map<string, string>, userId: string,
                                                   id: string, rest: string, access: Access)
    requires '/' !in id && !StartsWith(userId, DevicePrefix)
    requires var at := DeviceById(devs, id); at.Some? && OwnedBy(devs[at.value], farmOwner, userId)
    requires MentionsDeviceTraffic(rest)
    ensures CheckAcl(devs, farmOwner, userId, "device/" + id + "/" + rest, access)
  {
    var topic := "device/" + id + "/" + rest;
    DeviceTopicParts(id, rest);
    assert topic != "user/" + userId + "/notifications" by {
      assert topic[0] == 'd' && ("user/" + userId + "/notifications")[0] == 'u';
    }
    assert MentionsDeviceTraffic(topic) by {
      assert topic == ("device/" + id + "/") + rest;
      if Contains(rest, "cmd") { ContainsInSuffix("device/" + id + "/", rest, "cmd"); }
      else if Contains(rest, "resp") { ContainsInSuffix("device/" + id + "/", rest, "resp"); }
      else if Contains(rest, "status") { ContainsInSuffix("device/" + id + "/", rest, "status"); }
      else { ContainsInSuffix("device/" + id + "/", rest, "telemetry"); }
    }
  }

  /** The first two levels of `device/{id}/...` are `device` and the id. */
  lemma DeviceTopicParts(id: string, rest: string)
    requires '/' !in id
    ensures var parts := Split("device/" + id + "/" + rest, '/');
            |parts| >= 2 && parts[0] == "device" && parts[1] == id
  {
    var tail := id + ['/'] + rest;
    assert "device/" + id + "/" + rest == "device" + ['/'] + tail;
    SplitHead("device", '/', tail);
    SplitHead(id, '/', rest);
  }

  /** A device that signs in with its bare 36-character id is authenticated
      by the device rules but judged by the user rules, which grant it none
      of its own topics unless its id is also the owner's user id. */
  lemma {:induction false} BareDeviceIdJudgedAsUser(devs: seq<Device>, farmOwner: map<string, string>, id: string,
                                                    rest: string, access: Access)
    requires |id| == 36 && '/' !in id && !StartsWith(id, DevicePrefix)
    requires var at := DeviceById(devs, id); at.None? || !OwnedBy(devs[at.value], farmOwner, id)
    ensures UsesDeviceAuth(id)
    ensures !CheckAcl(devs, farmOwner, id, "device/" + id + "/" + rest, access)
  {
    UserNeedsOwnership(devs, farmOwner, id, id, rest, access);
  }

  /** With no secret stored (a new or unpaired device) no password
      authenticates the device. */
  lemma NoSecretNoDeviceLogin(devs: seq<Device>, username: string, password: string, verify: string -> Option<Claims>)
    requires UsesDeviceAuth(username)
    requires var at := DeviceByIdOrSerial(devs, username); at.Some? ==> devs[at.value].deviceToken.None?
    ensures !Authenticate(devs, username, password, verify)
  {
  }

  /** No `device:{id}` username ever authenticates, whatever the device
      table and the password: the lookup refuses it before any row is read. */
  lemma DevicePrefixNeverAuthenticates(devs: seq<Device>, id: string, password: string,
                                       verify: string -> Option<Claims>)
    ensures !Authenticate(devs, DevicePrefix + id, password, verify)
  {
  }
}
