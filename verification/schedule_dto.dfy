/** The input rules of a device schedule (src/schedule/dto/create-device-schedule.dto.ts)
    and the partial form an update sends, with the schedule type of
    src/schedule/entities/device-schedule.entity.ts. The `IsOptional` decorator lets an
    absent or null field through without checking it; every present field
    must satisfy its rules. */
module ScheduleDto {

  import opened Common
  import opened Strings

  /** `ScheduleType`: the enum check of the `type` field is this datatype. */
  datatype ScheduleType = Recurring | OneTime

  /** The stored name of a schedule type. */
  function TypeName(t: ScheduleType): string {
    match t
    case Recurring => "recurring"
    case OneTime => "one_time"
  }

  const MaxNameLength: nat := 100
  const MaxCommandLength: nat := 100
  const MaxTimezoneLength: nat := 50

  /** A hexadecimal digit of either case. */
  predicate IsHexDigit(c: char) {
    '0' <= c <= '9' || 'a' <= c <= 'f' || 'A' <= c <= 'F'
  }

  /** The positions of the four hyphens of a UUID. */
  predicate IsHyphenPosition(k: int) {
    k == 8 || k == 13 || k == 18 || k == 23
  }

  /** The `IsUUID` rule: groups of 8, 4, 4, 4 and 12 hexadecimal digits joined by hyphens. */
  predicate IsUuid(s: string)
    ensures IsUuid(s) ==> Truthy(Some(s)) && '/' !in s
  {
    |s| == 36 && forall k :: 0 <= k < 36 ==> if IsHyphenPosition(k) then s[k] == '-' else IsHexDigit(s[k])
  }

  /** The `Matches` rule of the time field: two digits, a colon, two digits. Nothing
      bounds the hour or the minute. */
  predicate IsClock(t: string)
    ensures IsClock(t) ==> |t| == 5 && t[2] == ':' && ':' !in t[..2] && ':' !in t[3..]
  {
    |t| == 5 && IsDigit(t[0]) && IsDigit(t[1]) && t[2] == ':' && IsDigit(t[3]) && IsDigit(t[4])
  }

  /** The rules `ArrayMinSize(1)`, `IsInt`, `Min(0)` and `Max(6)` on each day (0 is Sunday). */
  predicate ValidDays(days: seq<int>)
    ensures ValidDays(days) ==> days != [] && forall d :: d in days ==> 0 <= d < 7
  {
    |days| >= 1 && forall k :: 0 <= k < |days| ==> 0 <= days[k] <= 6
  }

  /** `CreateDeviceScheduleDto`; an absent or null optional field is `None`.
      `executeAt` is the instant the ISO date string denotes. */
  datatype CreateScheduleInput = CreateScheduleInput(
    name: string,
    kind: ScheduleType,
    deviceId: Option<string>,
    farmId: Option<string>,
    command: string,
    params: Option<JsonValue>,
    daysOfWeek: Option<seq<int>>,
    time: Option<string>,
    executeAt: Option<int>,
    timezone: Option<string>,
    enabled: Option<bool>)

  /** The rules of the optional fields, shared by both forms. */
  predicate ValidOptional(deviceId: Option<string>, farmId: Option<string>, params: Option<JsonValue>,
                          daysOfWeek: Option<seq<int>>, time: Option<string>, timezone: Option<string>) {
    (deviceId.Some? ==> IsUuid(deviceId.value))
    && (farmId.Some? ==> IsUuid(farmId.value))
    && (params.Some? ==> params.value.JObj?)
    && (daysOfWeek.Some? ==> ValidDays(daysOfWeek.value))
    && (time.Some? ==> IsClock(time.value))
    && (timezone.Some? ==> |timezone.value| <= MaxTimezoneLength)
  }

  /** The input passes every rule of the creation form. */
  predicate ValidCreate(d: CreateScheduleInput)
    ensures ValidCreate(d) ==> (d.deviceId.Some? ==> Truthy(d.deviceId)) && (d.farmId.Some? ==> Truthy(d.farmId))
    ensures ValidCreate(d) ==> d.time.Some? ==> ':' in d.time.value
  {
    |d.name| <= MaxNameLength && |d.command| <= MaxCommandLength
    && ValidOptional(d.deviceId, d.farmId, d.params, d.daysOfWeek, d.time, d.timezone)
  }

  /** A field of a partial update: left out, sent as null, or sent with a
      value. The difference between the first two matters to the service. */
  datatype Patch<T> = Absent | Null | Given(value: T)

  /** The value a patch carries, if any. */
  function Sent<T>(p: Patch<T>): Option<T> {
    if p.Given? then Some(p.value) else None
  }

  /** `UpdateDeviceScheduleDto`, every field of the creation form made
      optional. The nullable columns take a `Patch`; for the others `None`
      is a field left out. */
  datatype UpdateScheduleInput = UpdateScheduleInput(
    name: Option<string>,
    kind: Option<ScheduleType>,
    deviceId: Patch<string>,
    farmId: Patch<string>,
    command: Option<string>,
    params: Option<JsonValue>,
    daysOfWeek: Patch<seq<int>>,
    time: Patch<string>,
    executeAt: Patch<int>,
    timezone: Option<string>,
    enabled: Option<bool>)

  /** The update that sends nothing. */
  const NoChange: UpdateScheduleInput :=
    UpdateScheduleInput(None, None, Absent, Absent, None, None, Absent, Absent, Absent, None, None)

  /** The input passes every rule of the partial form: the creation rules on
      each field that carries a value. */
  predicate ValidUpdate(d: UpdateScheduleInput)
    ensures ValidUpdate(d) ==> (d.deviceId.Given? ==> Truthy(Sent(d.deviceId))) && (d.farmId.Given? ==> Truthy(Sent(d.farmId)))
    ensures ValidUpdate(d) ==> d.time.Given? ==> ':' in d.time.value
  {
    (d.name.Some? ==> |d.name.value| <= MaxNameLength)
    && (d.command.Some? ==> |d.command.value| <= MaxCommandLength)
    && ValidOptional(Sent(d.deviceId), Sent(d.farmId), d.params, Sent(d.daysOfWeek), Sent(d.time), d.timezone)
  }

  // ------------------------------------------------------------ properties

  /** Every valid creation input, read as an update, is a valid update: the
      partial form relaxes presence only. */
  lemma CreateRulesImplyUpdateRules(d: CreateScheduleInput)
    requires ValidCreate(d)
    ensures ValidUpdate(UpdateScheduleInput(Some(d.name), Some(d.kind), PatchOf(d.deviceId), PatchOf(d.farmId),
                                            Some(d.command), d.params, PatchOf(d.daysOfWeek), PatchOf(d.time),
                                            PatchOf(d.executeAt), d.timezone, d.enabled))
  {
  }

  /** An optional value sent as a patch: a value is given, no value is null. */
  function PatchOf<T>(o: Option<T>): (p: Patch<T>)
    ensures Sent(p) == o
  {
    if o.Some? then Given(o.value) else Null
  }

  /** The clock rule admits any two pairs of digits: it accepts "99:99" and
      rejects a single-digit hour such as "6:00". */
  lemma ClockRuleIsShapeOnly()
    ensures IsClock("99:99")
    ensures !IsClock("6:00")
  {
  }

  /** The two-digit rendering `HH:mm` of an hour and a minute below 100. */
  function ClockOf(h: nat, m: nat): (t: string)
    requires h < 100 && m < 100
    ensures IsClock(t)
  {
    [DigitChar(h / 10), DigitChar(h % 10), ':', DigitChar(m / 10), DigitChar(m % 10)]
  }
}
