/** The schedule engine (src/schedule/schedule.service.ts): creating,
    updating and toggling schedules, the rule that says whether a schedule
    is due at an instant, and the minute tick that sends the due commands
    through the synchronisation façade. The time-zone conversion is a
    parameter (`LocalClock`); instants are milliseconds since the epoch. */
module Schedule {

  import opened Common
  import opened Strings
  import opened ScheduleDto
  import SensorEntities
  import Sensor
  import Devices
  import Mqtt
  import Gateway
  import Sync

  /** A `device_schedule` row. Nullable columns are `Option`s. */
  datatype DeviceSchedule = DeviceSchedule(
    id: string,
    name: string,
    kind: ScheduleType,
    deviceId: Option<string>,
    farmId: Option<string>,
    command: string,
    params: JsonValue,
    daysOfWeek: Option<seq<int>>,
    time: Option<string>,
    executeAt: Option<int>,
    timezone: string,
    enabled: bool,
    lastExecutedAt: Option<int>)

  datatype ScheduleError = NotFound | BadRequest(message: string)

  const DefaultTimezone: string := "UTC"

  // ------------------------------------------------------------- validation

  /** The schedule names exactly one target: a device or a farm. */
  predicate HasOneTarget(s: DeviceSchedule) {
    Truthy(s.deviceId) != Truthy(s.farmId)
  }

  /** The fields its type needs: days and a time for a recurring schedule,
      an instant for a one-time schedule. */
  predicate Complete(kind: ScheduleType, days: Option<seq<int>>, time: Option<string>, executeAt: Option<int>) {
    match kind
    case Recurring => days.Some? && |days.value| > 0 && Truthy(time)
    case OneTime => executeAt.Some?
  }

  /** A row the service's own checks admit. */
  predicate WellFormed(s: DeviceSchedule) {
    HasOneTarget(s) && Complete(s.kind, s.daysOfWeek, s.time, s.executeAt)
  }

  /** `validateTarget`: exactly one of the two ids may be truthy. */
  function TargetError(deviceId: Option<string>, farmId: Option<string>): (e: Option<ScheduleError>)
    ensures e.None? <==> (Truthy(deviceId) && !Truthy(farmId)) || (!Truthy(deviceId) && Truthy(farmId))
    ensures e.Some? ==> e.value.BadRequest?
  {
    if Truthy(deviceId) == Truthy(farmId) then Some(BadRequest("Exactly one of deviceId or farmId must be provided"))
    else None
  }

  /** `validateScheduleFields`. */
  function FieldsError(kind: ScheduleType, days: Option<seq<int>>, time: Option<string>,
                       executeAt: Option<int>): (e: Option<ScheduleError>)
    ensures e.None? <==> Complete(kind, days, time, executeAt)
    ensures e.Some? ==> e.value.BadRequest?
  {
    match kind
    case Recurring =>
      if days.None? || |days.value| == 0 || !Truthy(time) then
        Some(BadRequest("Recurring schedules require daysOfWeek and time"))
      else None
    case OneTime =>
      if executeAt.None? then Some(BadRequest("One-time schedules require executeAt")) else None
  }

  // ------------------------------------------------------------------ create

  /** `create`: the target check, then the field check, then a row with the
      column defaults (no params is `{}`, no time zone is UTC, enabled). */
  function Created(d: CreateScheduleInput, newId: string): (r: Result<DeviceSchedule, ScheduleError>)
    ensures r.Ok? <==> TargetError(d.deviceId, d.farmId).None? && FieldsError(d.kind, d.daysOfWeek, d.time, d.executeAt).None?
    ensures TargetError(d.deviceId, d.farmId).Some? ==> r == Err(TargetError(d.deviceId, d.farmId).value)
    ensures r.Ok? ==> WellFormed(r.value)
    ensures r.Ok? ==> r.value.id == newId && r.value.name == d.name && r.value.kind == d.kind
                      && r.value.deviceId == d.deviceId && r.value.farmId == d.farmId && r.value.command == d.command
                      && r.value.daysOfWeek == d.daysOfWeek && r.value.time == d.time
                      && r.value.executeAt == d.executeAt && r.value.lastExecutedAt.None?
    ensures r.Ok? ==> r.value.enabled == (d.enabled != Some(false))
                      && r.value.timezone == (if d.timezone.Some? then d.timezone.value else DefaultTimezone)
                      && r.value.params == (if d.params.Some? then d.params.value else JObj(map[]))
  {
    var te := TargetError(d.deviceId, d.farmId);
    if te.Some? then Err(te.value)
    else
      var fe := FieldsError(d.kind, d.daysOfWeek, d.time, d.executeAt);
      if fe.Some? then Err(fe.value)
      else
        Ok(DeviceSchedule(newId, d.name, d.kind, d.deviceId, d.farmId, d.command,
                          if d.params.Some? then d.params.value else JObj(map[]),
                          d.daysOfWeek, d.time, d.executeAt,
                          if d.timezone.Some? then d.timezone.value else DefaultTimezone,
                          if d.enabled.Some? then d.enabled.value else true, None))
  }

  // ------------------------------------------------------------------ update

  /** `sent ?? fallback`: null and a field left out both fall back. */
  function Coalesce<T>(p: Patch<T>, fallback: Option<T>): (r: Option<T>)
    ensures p.Given? ==> r == Some(p.value)
    ensures !p.Given? ==> r == fallback
  {
    if p.Given? then Some(p.value) else fallback
  }

  /** What a nullable column holds once the patch is applied (the spread
      `{...existing, ...dto}` and `preload` agree on it): a field left out
      keeps its value, null clears it. */
  function Applied<T>(p: Patch<T>, current: Option<T>): (r: Option<T>)
    ensures p.Absent? ==> r == current
    ensures p.Null? ==> r.None?
    ensures p.Given? ==> r == Some(p.value)
  {
    match p
    case Absent => current
    case Null => None
    case Given(v) => Some(v)
  }

  /** `preload({id, ...dto})`: the stored row with every sent field replaced. */
  function Preloaded(s: DeviceSchedule, d: UpdateScheduleInput): (r: DeviceSchedule)
    ensures r.id == s.id && r.lastExecutedAt == s.lastExecutedAt
    ensures d == NoChange ==> r == s
  {
    DeviceSchedule(
      s.id,
      if d.name.Some? then d.name.value else s.name,
      if d.kind.Some? then d.kind.value else s.kind,
      Applied(d.deviceId, s.deviceId),
      Applied(d.farmId, s.farmId),
      if d.command.Some? then d.command.value else s.command,
      if d.params.Some? then d.params.value else s.params,
      Applied(d.daysOfWeek, s.daysOfWeek),
      Applied(d.time, s.time),
      Applied(d.executeAt, s.executeAt),
      if d.timezone.Some? then d.timezone.value else s.timezone,
      if d.enabled.Some? then d.enabled.value else s.enabled,
      s.lastExecutedAt)
  }

  /** The type an update leaves: `dto.type ?? existing.type`. */
  function TypeAfter(s: DeviceSchedule, d: UpdateScheduleInput): ScheduleType {
    if d.kind.Some? then d.kind.value else s.kind
  }

  /** `update` as written: when a target id is sent, the check runs on
      `dto.deviceId ?? existing.deviceId` and `dto.farmId ?? existing.farmId`,
      which reads a null id as the stored one although the saved row clears it. */
  function UpdatedAsWritten(s: DeviceSchedule, d: UpdateScheduleInput): (r: Result<DeviceSchedule, ScheduleError>)
    ensures r.Ok? ==> r.value == Preloaded(s, d)
  {
    if (!d.deviceId.Absent? || !d.farmId.Absent?)
       && TargetError(Coalesce(d.deviceId, s.deviceId), Coalesce(d.farmId, s.farmId)).Some? then
      Err(TargetError(Coalesce(d.deviceId, s.deviceId), Coalesce(d.farmId, s.farmId)).value)
    else
      var fe := FieldsError(TypeAfter(s, d), Applied(d.daysOfWeek, s.daysOfWeek), Applied(d.time, s.time),
                            Applied(d.executeAt, s.executeAt));
      if fe.Some? then Err(fe.value) else Ok(Preloaded(s, d))
  }

  /** `update`, checking the target on the ids the saved row will hold. */
  function Updated(s: DeviceSchedule, d: UpdateScheduleInput): (r: Result<DeviceSchedule, ScheduleError>)
    ensures r.Ok? ==> r.value == Preloaded(s, d)
    ensures r.Ok? ==> Complete(r.value.kind, r.value.daysOfWeek, r.value.time, r.value.executeAt)
    ensures r.Ok? && (!d.deviceId.Absent? || !d.farmId.Absent?) ==> HasOneTarget(r.value)
    ensures r.Err? <==>
              ((!d.deviceId.Absent? || !d.farmId.Absent?)
               && TargetError(Applied(d.deviceId, s.deviceId), Applied(d.farmId, s.farmId)).Some?)
              || !Complete(TypeAfter(s, d), Applied(d.daysOfWeek, s.daysOfWeek), Applied(d.time, s.time),
                           Applied(d.executeAt, s.executeAt))
  {
    if (!d.deviceId.Absent? || !d.farmId.Absent?)
       && TargetError(Applied(d.deviceId, s.deviceId), Applied(d.farmId, s.farmId)).Some? then
      Err(TargetError(Applied(d.deviceId, s.deviceId), Applied(d.farmId, s.farmId)).value)
    else
      var fe := FieldsError(TypeAfter(s, d), Applied(d.daysOfWeek, s.daysOfWeek), Applied(d.time, s.time),
                            Applied(d.executeAt, s.executeAt));
      if fe.Some? then Err(fe.value) else Ok(Preloaded(s, d))
  }

  /** As written, clearing the device of a device schedule with an explicit
      null passes the check and saves a schedule with no target at all. */
  lemma NullTargetPassesAsWritten(s: DeviceSchedule)
    requires Truthy(s.deviceId) && !Truthy(s.farmId)
    requires Complete(s.kind, s.daysOfWeek, s.time, s.executeAt)
    ensures var r := UpdatedAsWritten(s, NoChange.(deviceId := Null));
            r.Ok? && !Truthy(r.value.deviceId) && !Truthy(r.value.farmId)
  {
  }

  /** The corrected update refuses that same request. */
  lemma NullTargetRefused(s: DeviceSchedule)
    requires Truthy(s.deviceId) && !Truthy(s.farmId)
    ensures Updated(s, NoChange.(deviceId := Null)) == Err(BadRequest("Exactly one of deviceId or farmId must be provided"))
  {
  }

  /** Every row the service creates is well formed, and the corrected
      update keeps it so: a saved schedule always has exactly one target and
      the fields its type needs. */
  lemma {:induction false} UpdateKeepsWellFormed(s: DeviceSchedule, d: UpdateScheduleInput)
    requires WellFormed(s)
    ensures Updated(s, d).Ok? ==> WellFormed(Updated(s, d).value)
  {
    var r := Updated(s, d);
    if r.Ok? && d.deviceId.Absent? && d.farmId.Absent? {
      assert r.value.deviceId == s.deviceId && r.value.farmId == s.farmId;
    }
  }

  // ------------------------------------------------------------------ toggle

  /** `toggle`: only `enabled` changes, to its negation. */
  function Toggled(s: DeviceSchedule): (r: DeviceSchedule)
    ensures r.enabled == !s.enabled
    ensures r.(enabled := s.enabled) == s
  {
    s.(enabled := !s.enabled)
  }

  /** Toggling twice restores the row; toggling keeps a row well formed. */
  lemma ToggleTwice(s: DeviceSchedule)
    ensures Toggled(Toggled(s)) == s
    ensures WellFormed(s) ==> WellFormed(Toggled(s))
  {
  }

  // ----------------------------------------------------------- due or not

  /** The local calendar fields of an instant in a time zone
      (`getLocalTime`); `dayOfWeek` counts from Sunday = 0. */
  datatype LocalTime = LocalTime(year: int, month: int, day: int, dayOfWeek: int, hours: int, minutes: int)

  /** The time-zone conversion: instant and zone name to local fields, or
      `None` where the conversion throws (a zone name it does not know). */
  type LocalClock = (int, string) -> Option<LocalTime>

  /** The clock converts every instant in this zone. */
  ghost predicate KnowsZone(clock: LocalClock, zone: string) {
    forall t :: clock(t, zone).Some?
  }

  /** Two local times fall in the same minute of the same day. */
  predicate SameLocalMinute(a: LocalTime, b: LocalTime) {
    a.year == b.year && a.month == b.month && a.day == b.day && a.hours == b.hours && a.minutes == b.minutes
  }

  /** `Number(part)` of one piece of the time. */
  function NumberOf(s: string): SensorEntities.Number {
    Sensor.Coerce(JStr(s))
  }

  /** `time.split(':').map(Number)`: the hour and the minute; a time with no
      colon has an undefined minute, which is NaN. */
  function ScheduledAt(time: string): (hm: (SensorEntities.Number, SensorEntities.Number)) {
    var parts := Split(time, ':');
    (NumberOf(parts[0]), if |parts| >= 2 then NumberOf(parts[1]) else SensorEntities.NaN)
  }

  /** The local time shows the hour and the minute the row names. */
  predicate AtScheduledMinute(time: string, local: LocalTime) {
    ScheduledAt(time) == (SensorEntities.Num(local.hours), SensorEntities.Num(local.minutes))
  }

  /** `shouldExecute`: `Some(due)`, or `None` where the code throws: a
      recurring row whose zone the clock rejects, one without days, one with
      a matching day and no time, and one at its minute whose last run the
      clock cannot convert. */
  function ShouldExecute(s: DeviceSchedule, now: int, clock: LocalClock): (r: Option<bool>)
    ensures s.kind.OneTime? ==>
              r == Some(s.executeAt.Some? && s.executeAt.value <= now && s.lastExecutedAt.None?)
    ensures s.kind.Recurring? && clock(now, s.timezone).None? ==> r.None?
    ensures r.None? <==>
              s.kind.Recurring?
              && (clock(now, s.timezone).None? || s.daysOfWeek.None?
                  || (clock(now, s.timezone).value.dayOfWeek in s.daysOfWeek.value
                      && (s.time.None?
                          || (AtScheduledMinute(s.time.value, clock(now, s.timezone).value)
                              && s.lastExecutedAt.Some? && clock(s.lastExecutedAt.value, s.timezone).None?))))
    ensures s.kind.Recurring? ==>
              (r == Some(true) <==>
                 clock(now, s.timezone).Some? && s.daysOfWeek.Some?
                 && clock(now, s.timezone).value.dayOfWeek in s.daysOfWeek.value
                 && s.time.Some? && AtScheduledMinute(s.time.value, clock(now, s.timezone).value)
                 && (s.lastExecutedAt.Some? ==>
                       clock(s.lastExecutedAt.value, s.timezone).Some?
                       && !SameLocalMinute(clock(s.lastExecutedAt.value, s.timezone).value,
                                           clock(now, s.timezone).value)))
  {
    if s.kind.OneTime? then
      Some(s.executeAt.Some? && s.executeAt.value <= now && s.lastExecutedAt.None?)
    else match clock(now, s.timezone)
      case None => None
      case Some(local) =>
        if s.daysOfWeek.None? then None
        else if local.dayOfWeek !in s.daysOfWeek.value then Some(false)
        else if s.time.None? then None
        else
          var (h, m) := ScheduledAt(s.time.value);
          if h != SensorEntities.Num(local.hours) || m != SensorEntities.Num(local.minutes) then Some(false)
          else if s.lastExecutedAt.Some? then
            match clock(s.lastExecutedAt.value, s.timezone)
            case None => None
            case Some(last) =>
              if last.year == local.year && last.month == local.month && last.day == local.day
                 && SensorEntities.Num(last.hours) == h && SensorEntities.Num(last.minutes) == m then Some(false)
              else Some(true)
          else Some(true)
  }

  /** A well-formed row in a zone the clock knows never makes the check
      throw. */
  lemma WellFormedDecides(s: DeviceSchedule, now: int, clock: LocalClock)
    requires Complete(s.kind, s.daysOfWeek, s.time, s.executeAt)
    requires s.kind.Recurring? ==> KnowsZone(clock, s.timezone)
    ensures ShouldExecute(s, now, clock).Some?
  {
    if s.kind.Recurring? {
      assert clock(now, s.timezone).Some?;
      if s.lastExecutedAt.Some? {
        var last := s.lastExecutedAt.value;
        assert clock(last, s.timezone).Some?;
      }
    }
  }

  /** A valid `HH:mm` reads as its two two-digit numbers, and rendering them
      again gives the same text. */
  lemma {:induction false} ClockReads(t: string)
    requires IsClock(t)
    ensures var hm := ScheduledAt(t);
            hm.0.Num? && hm.1.Num? && 0 <= hm.0.n < 100 && 0 <= hm.1.n < 100
            && ClockOf(hm.0.n, hm.1.n) == t
  {
    var a, b := t[..2], t[3..];
    assert t == a + [':'] + b;
    SplitHead(a, ':', b);
    assert ':' !in b by { assert b == [t[3], t[4]]; }
    assert Split(t, ':') == [a, b];
    assert a[..1] == [t[0]] && b[..1] == [t[3]];
    assert a[..1][..0] == [] && b[..1][..0] == [];
    assert a[1] == t[1] && a[..1][0] == t[0] && b[1] == t[4] && b[..1][0] == t[3];
    assert DecimalValue(a[..1]) == t[0] as int - '0' as int;
    assert DecimalValue(b[..1]) == t[3] as int - '0' as int;
    var h := DecimalValue(a);
    var m := DecimalValue(b);
    assert h == 10 * (t[0] as int - '0' as int) + (t[1] as int - '0' as int);
    assert m == 10 * (t[3] as int - '0' as int) + (t[4] as int - '0' as int);
  }

  /** Rendering an hour and a minute as `HH:mm` and reading it back gives
      them again. */
  lemma {:induction false} ClockRoundTrip(h: nat, m: nat)
    requires h < 100 && m < 100
    ensures ScheduledAt(ClockOf(h, m)) == (SensorEntities.Num(h), SensorEntities.Num(m))
  {
    var t := ClockOf(h, m);
    ClockReads(t);
    var hm := ScheduledAt(t);
    assert t[0] as int - '0' as int == h / 10 && t[1] as int - '0' as int == h % 10;
    assert t[3] as int - '0' as int == m / 10 && t[4] as int - '0' as int == m % 10;
    assert ClockOf(hm.0.n, hm.1.n) == t;
    assert hm.0.n / 10 == h / 10 && hm.0.n % 10 == h % 10 by {
      assert ClockOf(hm.0.n, hm.1.n)[0] == t[0] && ClockOf(hm.0.n, hm.1.n)[1] == t[1];
    }
    assert hm.1.n / 10 == m / 10 && hm.1.n % 10 == m % 10 by {
      assert ClockOf(hm.0.n, hm.1.n)[3] == t[3] && ClockOf(hm.0.n, hm.1.n)[4] == t[4];
    }
  }

  /** The clock rule lets through times such as "25:00" or "07:75": such a
      schedule is never due, since local hours stay below 24 and minutes
      below 60. */
  lemma OutOfRangeTimeNeverDue(s: DeviceSchedule, h: nat, m: nat, now: int, clock: LocalClock)
    requires h < 100 && m < 100 && (h >= 24 || m >= 60)
    requires s.kind.Recurring? && s.time == Some(ClockOf(h, m))
    requires clock(now, s.timezone).Some? ==>
               0 <= clock(now, s.timezone).value.hours < 24 && 0 <= clock(now, s.timezone).value.minutes < 60
    ensures ShouldExecute(s, now, clock) != Some(true)
  {
    ClockRoundTrip(h, m);
  }

  // -------------------------------------------------------------- execution

  /** What a successful run records: the instant, and a one-time schedule
      switched off. */
  function Mark(s: DeviceSchedule, now: int): (r: DeviceSchedule)
    ensures r.lastExecutedAt == Some(now)
    ensures r.enabled == (s.enabled && s.kind.Recurring?)
    ensures r.(lastExecutedAt := s.lastExecutedAt, enabled := s.enabled) == s
  {
    s.(lastExecutedAt := Some(now), enabled := if s.kind.OneTime? then false else s.enabled)
  }

  /** Once marked, a recurring schedule is not due again in the local minute
      it ran in: the duplicate-minute guard. */
  lemma {:induction false} NoRepeatWithinMinute(s: DeviceSchedule, now: int, later: int, clock: LocalClock)
    requires s.kind.Recurring? && ShouldExecute(s, now, clock) == Some(true)
    requires clock(later, s.timezone).Some?
    requires SameLocalMinute(clock(later, s.timezone).value, clock(now, s.timezone).value)
    ensures ShouldExecute(Mark(s, now), later, clock) == Some(false)
  {
    var t := Mark(s, now);
    assert t.timezone == s.timezone && t.time == s.time && t.daysOfWeek == s.daysOfWeek && t.kind == s.kind;
    var local := clock(now, s.timezone).value;
    assert AtScheduledMinute(s.time.value, local);
    assert SameLocalMinute(clock(t.lastExecutedAt.value, t.timezone).value, clock(later, t.timezone).value);
  }

  /** A one-time schedule that ran is never due again and is switched off. */
  lemma OneTimeRunsOnce(s: DeviceSchedule, now: int, later: int, clock: LocalClock)
    requires s.kind.OneTime?
    ensures ShouldExecute(Mark(s, now), later, clock) == Some(false)
    ensures !Mark(s, now).enabled
  {
  }

  /** The devices of a farm (`deviceService.findAll(farmId)`), in table order. */
  function FarmDevices(devs: seq<Devices.Device>, farmId: string): (ids: seq<string>)
    ensures |ids| <= |devs|
    ensures forall id :: id in ids <==> exists k :: 0 <= k < |devs| && devs[k].farmId == Some(farmId) && devs[k].id == id
  {
    if devs == [] then []
    else
      var init := FarmDevices(devs[..|devs| - 1], farmId);
      var last := devs[|devs| - 1];
      assert forall k :: 0 <= k < |devs| - 1 ==> devs[..|devs| - 1][k] == devs[k];
      if last.farmId == Some(farmId) then init + [last.id] else init
  }

  /** The devices a run sends to: the schedule's device, or every device of
      its farm, or none. */
  function Targets(s: DeviceSchedule, devs: seq<Devices.Device>): seq<string> {
    if Truthy(s.deviceId) then [s.deviceId.value]
    else if Truthy(s.farmId) then FarmDevices(devs, s.farmId.value)
    else []
  }

  /** The publications that sending one command to each device makes. */
  function Commands(ids: seq<string>, command: string, params: JsonValue, stamp: string): (pubs: seq<Mqtt.Publication>)
    ensures |pubs| == |ids|
  {
    if ids == [] then []
    else
      Commands(ids[..|ids| - 1], command, params, stamp)
      + [Mqtt.Publication(Mqtt.CommandTopic(ids[|ids| - 1]), Mqtt.CommandPayload(command, params, stamp),
                          Mqtt.AtLeastOnce)]
  }

  /** The room status each send leaves for each device. */
  function Statuses(ids: seq<string>, command: string, answerFor: string -> PublishOutcome,
                    stamp: string): (effects: seq<Gateway.Effect>)
    ensures |effects| == |ids|
  {
    if ids == [] then []
    else
      var id := ids[|ids| - 1];
      Statuses(ids[..|ids| - 1], command, answerFor, stamp)
      + [Gateway.Emit(Gateway.ToRoom(Gateway.RoomName(id)), "deviceStatus",
                      Gateway.RoomEnvelope(id, "status", JObj(Sync.CommandStatus(command, answerFor(id), stamp)), stamp))]
  }

  /** Sending to one more device appends its publication and its status. */
  lemma SentOneMore(ids: seq<string>, k: nat, command: string, params: JsonValue, stamp: string,
                    answerFor: string -> PublishOutcome)
    requires k < |ids|
    ensures Commands(ids[..k + 1], command, params, stamp)
            == Commands(ids[..k], command, params, stamp)
               + [Mqtt.Publication(Mqtt.CommandTopic(ids[k]), Mqtt.CommandPayload(command, params, stamp),
                                   Mqtt.AtLeastOnce)]
    ensures Statuses(ids[..k + 1], command, answerFor, stamp)
            == Statuses(ids[..k], command, answerFor, stamp)
               + [Gateway.Emit(Gateway.ToRoom(Gateway.RoomName(ids[k])), "deviceStatus",
                               Gateway.RoomEnvelope(ids[k], "status",
                                                    JObj(Sync.CommandStatus(command, answerFor(ids[k]), stamp)), stamp))]
  {
    assert ids[..k + 1][..k] == ids[..k];
  }

  /** `execute`: a device schedule counts as run only when its device's
      publish succeeds; a farm schedule counts as run whatever its devices
      answer, and so does a schedule with no target. */
  function Executed(s: DeviceSchedule, now: int, answerFor: string -> PublishOutcome): (r: DeviceSchedule)
    ensures Truthy(s.deviceId) && answerFor(s.deviceId.value).PublishFailed? ==> r == s
    ensures !Truthy(s.deviceId) ==> r == Mark(s, now)
    ensures Truthy(s.deviceId) && answerFor(s.deviceId.value).Published? ==> r == Mark(s, now)
  {
    if Truthy(s.deviceId) && answerFor(s.deviceId.value).PublishFailed? then s else Mark(s, now)
  }

  // ------------------------------------------------------------ the tick

  /** The row is enabled and due. */
  predicate Due(s: DeviceSchedule, now: int, clock: LocalClock) {
    s.enabled && ShouldExecute(s, now, clock) == Some(true)
  }

  /** The row is enabled and its check throws, which ends the tick. */
  predicate Throws(s: DeviceSchedule, now: int, clock: LocalClock) {
    s.enabled && ShouldExecute(s, now, clock).None?
  }

  /** How many rows the tick gets through: up to the first that throws. */
  function Halt(table: seq<DeviceSchedule>, now: int, clock: LocalClock): (h: nat)
    ensures h <= |table|
    ensures forall k :: 0 <= k < h ==> !Throws(table[k], now, clock)
    ensures h < |table| ==> Throws(table[h], now, clock)
  {
    if table == [] then 0
    else if Throws(table[0], now, clock) then 0
    else 1 + Halt(table[1..], now, clock)
  }

  /** One row's part of the tick. */
  function Step(s: DeviceSchedule, now: int, clock: LocalClock, answerFor: string -> PublishOutcome): DeviceSchedule {
    if Due(s, now, clock) then Executed(s, now, answerFor) else s
  }

  /** The table with the first `n` rows stepped. */
  function SteppedUpTo(table: seq<DeviceSchedule>, n: nat, now: int, clock: LocalClock,
                       answerFor: string -> PublishOutcome): (t: seq<DeviceSchedule>)
    ensures |t| == |table|
  {
    seq(|table|, k requires 0 <= k < |table| => if k < n then Step(table[k], now, clock, answerFor) else table[k])
  }

  /** The table after one tick: every row before the halt takes its step,
      the rest stay as they were. */
  function Tick(table: seq<DeviceSchedule>, now: int, clock: LocalClock,
                answerFor: string -> PublishOutcome): (t: seq<DeviceSchedule>)
    ensures |t| == |table|
  {
    SteppedUpTo(table, Halt(table, now, clock), now, clock, answerFor)
  }

  /** Stepping row `n` of a table stepped up to `n` steps it up to `n + 1`. */
  lemma SteppedOneMore(table: seq<DeviceSchedule>, n: nat, now: int, clock: LocalClock,
                       answerFor: string -> PublishOutcome)
    requires n < |table|
    ensures SteppedUpTo(table, n, now, clock, answerFor)[n := Step(table[n], now, clock, answerFor)]
            == SteppedUpTo(table, n + 1, now, clock, answerFor)
  {
  }

  /** The publications one row makes in a tick: its commands when due. */
  function RowCommands(s: DeviceSchedule, now: int, clock: LocalClock, devs: seq<Devices.Device>,
                       stamp: string): seq<Mqtt.Publication> {
    if Due(s, now, clock) then Commands(Targets(s, devs), s.command, s.params, stamp) else []
  }

  /** The room statuses one row leaves in a tick. */
  function RowNotices(s: DeviceSchedule, now: int, clock: LocalClock, devs: seq<Devices.Device>,
                      answerFor: string -> PublishOutcome, stamp: string): seq<Gateway.Effect> {
    if Due(s, now, clock) then Statuses(Targets(s, devs), s.command, answerFor, stamp) else []
  }

  /** The publications the due rows among `rows` make, in order. */
  function Dispatches(rows: seq<DeviceSchedule>, now: int, clock: LocalClock, devs: seq<Devices.Device>,
                      stamp: string): seq<Mqtt.Publication>
  {
    if rows == [] then []
    else
      var s := rows[|rows| - 1];
      Dispatches(rows[..|rows| - 1], now, clock, devs, stamp)
      + RowCommands(s, now, clock, devs, stamp)
  }

  /** The room statuses the due rows among `rows` leave, in order. */
  function Notices(rows: seq<DeviceSchedule>, now: int, clock: LocalClock, devs: seq<Devices.Device>,
                   answerFor: string -> PublishOutcome, stamp: string): seq<Gateway.Effect>
  {
    if rows == [] then []
    else
      var s := rows[|rows| - 1];
      Notices(rows[..|rows| - 1], now, clock, devs, answerFor, stamp)
      + RowNotices(s, now, clock, devs, answerFor, stamp)
  }

  /** A tick changes only due rows it reached, and only by running them. */
  lemma TickChangesOnlyDueRows(table: seq<DeviceSchedule>, now: int, clock: LocalClock,
                               answerFor: string -> PublishOutcome, k: nat)
    requires k < |table|
    ensures var t := Tick(table, now, clock, answerFor);
            t[k] == table[k] || (k < Halt(table, now, clock) && Due(table[k], now, clock)
                                 && t[k] == Executed(table[k], now, answerFor))
  {
  }

  /** In a table of well-formed rows whose recurring zones the clock knows,
      no check throws, so the tick reaches every row. */
  lemma {:induction false} WellFormedTableRunsThrough(table: seq<DeviceSchedule>, now: int, clock: LocalClock)
    requires forall k :: 0 <= k < |table| ==> WellFormed(table[k])
    requires forall k :: 0 <= k < |table| && table[k].kind.Recurring? ==> KnowsZone(clock, table[k].timezone)
    ensures Halt(table, now, clock) == |table|
  {
    var h := Halt(table, now, clock);
    if h < |table| {
      WellFormedDecides(table[h], now, clock);
      assert false;
    }
  }

  /** An enabled recurring row in a zone the clock rejects throws: the tick
      stops at it or earlier and leaves it and every later row as they were. */
  lemma UnknownZoneStopsTick(table: seq<DeviceSchedule>, now: int, clock: LocalClock,
                             answerFor: string -> PublishOutcome, k: nat)
    requires k < |table| && table[k].enabled && table[k].kind.Recurring?
    requires clock(now, table[k].timezone).None?
    ensures Halt(table, now, clock) <= k
    ensures forall j :: k <= j < |table| ==> Tick(table, now, clock, answerFor)[j] == table[j]
  {
  }

  /** A tick leaves no due row behind unless a throwing row stopped it. */
  lemma {:induction false} TickRunsEveryDueRow(table: seq<DeviceSchedule>, now: int, clock: LocalClock,
                                               answerFor: string -> PublishOutcome, k: nat)
    requires k < Halt(table, now, clock) && Due(table[k], now, clock)
    requires !Truthy(table[k].deviceId) || answerFor(table[k].deviceId.value).Published?
    ensures Tick(table, now, clock, answerFor)[k] == Mark(table[k], now)
  {
  }

  /** Extending the rows by one appends that row's dispatches and notices
      to the logs. */
  lemma LogsStep(table: seq<DeviceSchedule>, pubs: seq<Mqtt.Publication>, effects: seq<Gateway.Effect>, i: nat,
                 now: int, clock: LocalClock, devs: seq<Devices.Device>, answerFor: string -> PublishOutcome,
                 stamp: string)
    requires i < |table|
    ensures pubs + Dispatches(table[..i + 1], now, clock, devs, stamp)
            == (pubs + Dispatches(table[..i], now, clock, devs, stamp)) + RowCommands(table[i], now, clock, devs, stamp)
    ensures effects + Notices(table[..i + 1], now, clock, devs, answerFor, stamp)
            == (effects + Notices(table[..i], now, clock, devs, answerFor, stamp))
               + RowNotices(table[i], now, clock, devs, answerFor, stamp)
  {
    DispatchesStep(table, i, now, clock, devs, stamp);
    NoticesStep(table, i, now, clock, devs, answerFor, stamp);
    Mqtt.AppendAssoc(pubs, Dispatches(table[..i], now, clock, devs, stamp), RowCommands(table[i], now, clock, devs, stamp));
    Mqtt.AppendAssoc(effects, Notices(table[..i], now, clock, devs, answerFor, stamp),
                RowNotices(table[i], now, clock, devs, answerFor, stamp));
  }

  lemma DispatchesStep(table: seq<DeviceSchedule>, i: nat, now: int, clock: LocalClock, devs: seq<Devices.Device>,
                       stamp: string)
    requires i < |table|
    ensures Dispatches(table[..i + 1], now, clock, devs, stamp)
            == Dispatches(table[..i], now, clock, devs, stamp) + RowCommands(table[i], now, clock, devs, stamp)
  {
    var t := table[..i + 1];
    assert t[..|t| - 1] == table[..i] && t[|t| - 1] == table[i];
  }

  lemma NoticesStep(table: seq<DeviceSchedule>, i: nat, now: int, clock: LocalClock, devs: seq<Devices.Device>,
                    answerFor: string -> PublishOutcome, stamp: string)
    requires i < |table|
    ensures Notices(table[..i + 1], now, clock, devs, answerFor, stamp)
            == Notices(table[..i], now, clock, devs, answerFor, stamp) + RowNotices(table[i], now, clock, devs, answerFor, stamp)
  {
    var t := table[..i + 1];
    assert t[..|t| - 1] == table[..i] && t[|t| - 1] == table[i];
  }

  /** Where the tick stands at row `i`: a throwing row is the halt, any
      other row lies before it. */
  lemma HaltStep(table: seq<DeviceSchedule>, i: nat, now: int, clock: LocalClock)
    requires i < |table| && i <= Halt(table, now, clock)
    ensures Throws(table[i], now, clock) ==> i == Halt(table, now, clock)
    ensures !Throws(table[i], now, clock) ==> i < Halt(table, now, clock)
  {
  }

  /** The first row with id `id`. */
  function ScheduleIndex(table: seq<DeviceSchedule>, id: string): (r: Option<nat>)
    ensures r.Some? ==> r.value < |table| && table[r.value].id == id
    ensures r.Some? ==> forall k :: 0 <= k < r.value ==> table[k].id != id
    ensures r.None? ==> forall k :: 0 <= k < |table| ==> table[k].id != id
  {
    if table == [] then None
    else if table[0].id == id then Some(0)
    else match ScheduleIndex(table[1..], id)
      case None => None
      case Some(k) => Some(k + 1)
  }

  // ---------------------------------------------------------------- service

  class ScheduleService {
    /** The `device_schedule` table. */
    var schedules: seq<DeviceSchedule>
    /** Set while a tick runs. */
    var executing: bool
    const sync: Sync.SyncService

    constructor(sync: Sync.SyncService)
      ensures schedules == [] && !executing && this.sync == sync
    {
      schedules := [];
      executing := false;
      this.sync := sync;
    }

    /** `create`. */
    method Create(d: CreateScheduleInput, newId: string) returns (r: Result<DeviceSchedule, ScheduleError>)
      requires ScheduleIndex(schedules, newId).None?
      modifies this
      ensures r == Created(d, newId)
      ensures r.Ok? ==> schedules == old(schedules) + [r.value]
      ensures r.Err? ==> schedules == old(schedules)
      ensures executing == old(executing)
    {
      r := Created(d, newId);
      if r.Ok? {
        schedules := schedules + [r.value];
      }
    }

    /** `update`: `NotFound` for an unknown id, else the corrected update. */
    method Update(id: string, d: UpdateScheduleInput) returns (r: Result<DeviceSchedule, ScheduleError>)
      modifies this
      ensures var at := ScheduleIndex(old(schedules), id);
              at.None? ==> r == Err(NotFound) && schedules == old(schedules)
      ensures var at := ScheduleIndex(old(schedules), id);
              at.Some? ==> r == Updated(old(schedules)[at.value], d)
                           && schedules == (if r.Ok? then old(schedules)[at.value := r.value] else old(schedules))
      ensures executing == old(executing)
    {
      var at := ScheduleIndex(schedules, id);
      if at.None? {
        return Err(NotFound);
      }
      r := Updated(schedules[at.value], d);
      if r.Ok? {
        schedules := schedules[at.value := r.value];
      }
    }

    /** `remove`. */
    method Remove(id: string) returns (r: Result<DeviceSchedule, ScheduleError>)
      modifies this
      ensures var at := ScheduleIndex(old(schedules), id);
              at.None? ==> r == Err(NotFound) && schedules == old(schedules)
      ensures var at := ScheduleIndex(old(schedules), id);
              at.Some? ==> r == Ok(old(schedules)[at.value])
                           && schedules == old(schedules)[..at.value] + old(schedules)[at.value + 1..]
      ensures executing == old(executing)
    {
      var at := ScheduleIndex(schedules, id);
      if at.None? {
        return Err(NotFound);
      }
      r := Ok(schedules[at.value]);
      schedules := schedules[..at.value] + schedules[at.value + 1..];
    }

    /** `toggle`. */
    method Toggle(id: string) returns (r: Result<DeviceSchedule, ScheduleError>)
      modifies this
      ensures var at := ScheduleIndex(old(schedules), id);
              at.None? ==> r == Err(NotFound) && schedules == old(schedules)
      ensures var at := ScheduleIndex(old(schedules), id);
              at.Some? ==> r == Ok(Toggled(old(schedules)[at.value]))
                           && schedules == old(schedules)[at.value := r.value]
      ensures executing == old(executing)
    {
      var at := ScheduleIndex(schedules, id);
      if at.None? {
        return Err(NotFound);
      }
      var row := schedules[at.value];
      row := row.(enabled := !row.enabled);
      schedules := schedules[at.value := row];
      r := Ok(row);
    }

    /** The farm branch of `execute`: one send per device, in order; a
        failed send is logged and the next device is tried. */
    method SendToEach(ids: seq<string>, command: string, params: JsonValue, stamp: string,
                      answerFor: string -> PublishOutcome)
      modifies sync.mqtt, sync.gateway
      ensures sync.mqtt.published == old(sync.mqtt.published) + Commands(ids, command, params, stamp)
      ensures sync.gateway.effects == old(sync.gateway.effects) + Statuses(ids, command, answerFor, stamp)
      ensures sync.mqtt.registry == old(sync.mqtt.registry) && sync.gateway.clients == old(sync.gateway.clients)
    {
      var k := 0;
      while k < |ids|
        invariant 0 <= k <= |ids|
        invariant sync.mqtt.published == old(sync.mqtt.published) + Commands(ids[..k], command, params, stamp)
        invariant sync.gateway.effects == old(sync.gateway.effects) + Statuses(ids[..k], command, answerFor, stamp)
        invariant sync.mqtt.registry == old(sync.mqtt.registry) && sync.gateway.clients == old(sync.gateway.clients)
      {
        SendOne(ids, k, command, params, stamp, answerFor, old(sync.mqtt.published), old(sync.gateway.effects));
        k := k + 1;
      }
      assert ids[..k] == ids;
    }

    /** One turn of the farm branch: the send to the `k`-th device extends
        both logs by that device's entries. */
    method SendOne(ids: seq<string>, k: nat, command: string, params: JsonValue, stamp: string,
                   answerFor: string -> PublishOutcome, ghost pubs: seq<Mqtt.Publication>, ghost effs: seq<Gateway.Effect>)
      requires k < |ids|
      requires sync.mqtt.published == pubs + Commands(ids[..k], command, params, stamp)
      requires sync.gateway.effects == effs + Statuses(ids[..k], command, answerFor, stamp)
      modifies sync.mqtt, sync.gateway
      ensures sync.mqtt.published == pubs + Commands(ids[..k + 1], command, params, stamp)
      ensures sync.gateway.effects == effs + Statuses(ids[..k + 1], command, answerFor, stamp)
      ensures sync.mqtt.registry == old(sync.mqtt.registry) && sync.gateway.clients == old(sync.gateway.clients)
    {
      var pub := Mqtt.Publication(Mqtt.CommandTopic(ids[k]), Mqtt.CommandPayload(command, params, stamp), Mqtt.AtLeastOnce);
      var status := Gateway.Emit(Gateway.ToRoom(Gateway.RoomName(ids[k])), "deviceStatus",
                                 Gateway.RoomEnvelope(ids[k], "status",
                                                      JObj(Sync.CommandStatus(command, answerFor(ids[k]), stamp)), stamp));
      var reply := sync.SendCommandToDevice(ids[k], command, params, stamp, answerFor(ids[k]));
      SentOneMore(ids, k, command, params, stamp, answerFor);
      Mqtt.AppendAssoc(pubs, Commands(ids[..k], command, params, stamp), [pub]);
      Mqtt.AppendAssoc(effs, Statuses(ids[..k], command, answerFor, stamp), [status]);
    }

    /** `execute` on the row at `i`: send the command to its targets, then
        record the run unless the single device's publish failed. */
    method Execute(i: nat, now: int, stamp: string, devs: seq<Devices.Device>, answerFor: string -> PublishOutcome)
      requires i < |schedules|
      modifies this, sync.mqtt, sync.gateway
      ensures schedules == old(schedules)[i := Executed(old(schedules)[i], now, answerFor)]
      ensures executing == old(executing)
      ensures sync.mqtt.published
              == old(sync.mqtt.published)
                 + Commands(Targets(old(schedules)[i], devs), old(schedules)[i].command, old(schedules)[i].params, stamp)
      ensures sync.gateway.effects
              == old(sync.gateway.effects)
                 + Statuses(Targets(old(schedules)[i], devs), old(schedules)[i].command, answerFor, stamp)
      ensures sync.mqtt.registry == old(sync.mqtt.registry) && sync.gateway.clients == old(sync.gateway.clients)
    {
      var s := schedules[i];
      var ids := Targets(s, devs);
      if Truthy(s.deviceId) {
        var reply := sync.SendCommandToDevice(s.deviceId.value, s.command, s.params, stamp, answerFor(s.deviceId.value));
        assert ids == [s.deviceId.value];
        if reply.Err? {
          return;
        }
      } else {
        SendToEach(ids, s.command, s.params, stamp, answerFor);
      }
      schedules := schedules[i := Mark(s, now)];
    }

    /** Row `i` of the tick, when its check does not throw: run it if due.
        `table`, `pubs` and `effects` are the table and the two logs as the
        tick found them. */
    method RunRow(ghost table: seq<DeviceSchedule>, ghost pubs: seq<Mqtt.Publication>,
                  ghost effects: seq<Gateway.Effect>, i: nat, now: int, stamp: string,
                  devs: seq<Devices.Device>, clock: LocalClock, answerFor: string -> PublishOutcome)
      requires i < |table| && !Throws(table[i], now, clock)
      requires schedules == SteppedUpTo(table, i, now, clock, answerFor)
      requires sync.mqtt.published == pubs + Dispatches(table[..i], now, clock, devs, stamp)
      requires sync.gateway.effects == effects + Notices(table[..i], now, clock, devs, answerFor, stamp)
      modifies this, sync.mqtt, sync.gateway
      ensures schedules == SteppedUpTo(table, i + 1, now, clock, answerFor)
      ensures sync.mqtt.published == pubs + Dispatches(table[..i + 1], now, clock, devs, stamp)
      ensures sync.gateway.effects == effects + Notices(table[..i + 1], now, clock, devs, answerFor, stamp)
      ensures executing == old(executing)
      ensures sync.mqtt.registry == old(sync.mqtt.registry) && sync.gateway.clients == old(sync.gateway.clients)
    {
      var s := schedules[i];
      assert s == table[i];
      SteppedOneMore(table, i, now, clock, answerFor);
      LogsStep(table, pubs, effects, i, now, clock, devs, answerFor, stamp);
      if Due(s, now, clock) {
        Execute(i, now, stamp, devs, answerFor);
      }
    }

    /** The body of a tick: check every enabled row in table order and run
        the due ones, stopping at a row whose check throws. */
    method RunTick(now: int, stamp: string, devs: seq<Devices.Device>, clock: LocalClock,
                   answerFor: string -> PublishOutcome)
      modifies this, sync.mqtt, sync.gateway
      ensures schedules == Tick(old(schedules), now, clock, answerFor)
      ensures sync.mqtt.published
              == old(sync.mqtt.published)
                 + Dispatches(old(schedules)[..Halt(old(schedules), now, clock)], now, clock, devs, stamp)
      ensures sync.gateway.effects
              == old(sync.gateway.effects)
                 + Notices(old(schedules)[..Halt(old(schedules), now, clock)], now, clock, devs, answerFor, stamp)
      ensures sync.mqtt.registry == old(sync.mqtt.registry) && sync.gateway.clients == old(sync.gateway.clients)
      ensures executing == old(executing)
    {
      ghost var table := schedules;
      assert SteppedUpTo(table, 0, now, clock, answerFor) == table;
      var i := 0;
      var halted := false;
      while i < |schedules| && !halted
        invariant |schedules| == |table| && 0 <= i <= |table| && executing == old(executing)
        invariant schedules == SteppedUpTo(table, i, now, clock, answerFor)
        invariant !halted ==> i <= Halt(table, now, clock)
        invariant halted ==> i == Halt(table, now, clock)
        invariant sync.mqtt.published == old(sync.mqtt.published) + Dispatches(table[..i], now, clock, devs, stamp)
        invariant sync.gateway.effects
                  == old(sync.gateway.effects) + Notices(table[..i], now, clock, devs, answerFor, stamp)
        invariant sync.mqtt.registry == old(sync.mqtt.registry) && sync.gateway.clients == old(sync.gateway.clients)
        decreases |table| - i, if halted then 0 else 1
      {
        HaltStep(table, i, now, clock);
        if Throws(schedules[i], now, clock) {
          halted := true;
        } else {
          RunRow(table, old(sync.mqtt.published), old(sync.gateway.effects), i, now, stamp, devs, clock, answerFor);
          i := i + 1;
        }
      }
    }

    /** `processSchedules`: skipped while a tick is running; otherwise raise
        the flag, run the tick and lower the flag again. */
    method ProcessSchedules(now: int, stamp: string, devs: seq<Devices.Device>, clock: LocalClock,
                            answerFor: string -> PublishOutcome)
      modifies this, sync.mqtt, sync.gateway
      ensures old(executing) ==>
                executing && schedules == old(schedules) && sync.mqtt.published == old(sync.mqtt.published)
                && sync.gateway.effects == old(sync.gateway.effects)
      ensures !old(executing) ==>
                !executing && schedules == Tick(old(schedules), now, clock, answerFor)
                && sync.mqtt.published
                   == old(sync.mqtt.published)
                      + Dispatches(old(schedules)[..Halt(old(schedules), now, clock)], now, clock, devs, stamp)
                && sync.gateway.effects
                   == old(sync.gateway.effects)
                      + Notices(old(schedules)[..Halt(old(schedules), now, clock)], now, clock, devs, answerFor, stamp)
      ensures sync.mqtt.registry == old(sync.mqtt.registry) && sync.gateway.clients == old(sync.gateway.clients)
    {
      if executing {
        return;
      }
      executing := true;
      RunTick(now, stamp, devs, clock, answerFor);
      executing := false;
    }
  }
}
