/*
 * The devices view: how raw device rows from the spreadsheet backend are
 * normalised (the `active` flag, the HH:MM time window), the table's
 * filter chain, the operating time of a window, the token-type status
 * lookup and the status toggle.
 */
module Devices {
  import opened JsValues
  import opened Seqs
  import opened Strings
  import Config
  import Auth
  import Utils

  /** A device row as the backend returns it. An absent house, token
      type or location is the empty string. */
  datatype RawDevice = RawDevice(
    esp32Id: string, houseId: string, tokenType: string, location: string, active: Js,
    lastSeen: Option<int>, timeWindowStart: Js, timeWindowEnd: Js)

  /** A device row after `loadDevices` has normalised it. */
  datatype Device = Device(
    esp32Id: string, houseId: string, tokenType: string, location: string, active: bool,
    lastSeen: Option<int>, timeWindowStart: string, timeWindowEnd: string)

  /** A token type with its status. */
  datatype TokenType = TokenType(code: string, status: string)

  datatype DevicesResponse = Failure | Reply(devices: Option<seq<RawDevice>>)

  /** The UTC hours and minutes of a parsed ISO date. */
  datatype UtcTime = UtcTime(hours: int, minutes: int)

  // ---------------------------------------------------------------------
  // Normalisation

  /** The boolean the spreadsheet's `active` cell stands for. */
  predicate NormalizeActive(v: Js) {
    v == Bool(true) || v == Str("TRUE") || v == Str("true")
  }

  /** Normalising an already normalised flag keeps it. */
  lemma NormalizeActiveIdempotent(v: Js)
    ensures NormalizeActive(Bool(NormalizeActive(v))) == NormalizeActive(v)
  {
  }

  predicate IsDigit(c: char) {
    '0' <= c <= '9'
  }

  /** `/^\d{1,2}:\d{2}$/`. */
  predicate IsClock(s: string) {
    || (|s| == 4 && IsDigit(s[0]) && s[1] == ':' && IsDigit(s[2]) && IsDigit(s[3]))
    || (|s| == 5 && IsDigit(s[0]) && IsDigit(s[1]) && s[2] == ':' && IsDigit(s[3]) && IsDigit(s[4]))
  }

  /** A clock in its padded five-character form, `HH:MM`. */
  predicate IsPaddedClock(s: string) {
    IsClock(s) && |s| == 5
  }

  /** `String(n).padStart(2, '0')`. */
  function Pad2(n: int): (r: string)
    ensures 0 <= n < 100 ==> |r| == 2 && IsDigit(r[0]) && IsDigit(r[1])
  {
    if 0 <= n < 10 then
      assert |NatToString(n)| == 1 by { NatToStringSmall(n); }
      PadStart(IntToString(n), 2, '0')
    else if 10 <= n < 100 then
      assert |NatToString(n)| == 2 by { NatToStringSmall(n / 10); NatToStringSmall(n % 10); }
      PadStart(IntToString(n), 2, '0')
    else PadStart(IntToString(n), 2, '0')
  }

  lemma NatToStringSmall(n: nat)
    requires n < 10
    ensures |NatToString(n)| == 1
  {
  }

  /** The fallback of `formatTime24`: the given one, or midnight. */
  function Fallback(fallback: string): string {
    OrElse(fallback, "00:00")
  }

  /** `formatTime24` AS WRITTEN, for the value kinds the integer model has.
      `parseIso` reads a string as a date; `None` is an invalid date. An
      invalid date does not throw, so such a string is formatted from NaN
      hours and minutes. */
  function FormatTime24AsWritten(value: Js, fallback: string, parseIso: string -> Option<UtcTime>): (r: string)
    ensures !Truthy(value) ==> r == Fallback(fallback)
    ensures Truthy(value) && !IsClock(ToStr(value)) && Includes(ToStr(value), "T") && parseIso(ToStr(value)).None? ==>
              r == "NaN:NaN"
  {
    if !Truthy(value) then Fallback(fallback)
    else
      var s := ToStr(value);
      if IsClock(s) then PadStart(s, 5, '0')
      else if Includes(s, "T") then
        match parseIso(s)
        case None => "NaN:NaN"
        case Some(t) => Pad2(t.hours) + ":" + Pad2(t.minutes)
      else Fallback(fallback)
  }

  /** `formatTime24` with an unreadable date falling through to the
      fallback, as the code's `try`/`catch` intends. */
  function FormatTime24(value: Js, fallback: string, parseIso: string -> Option<UtcTime>): (r: string)
    ensures !Truthy(value) ==> r == Fallback(fallback)
    ensures Truthy(value) && IsClock(ToStr(value)) ==> r == PadStart(ToStr(value), 5, '0')
    ensures Truthy(value) && !IsClock(ToStr(value)) && Includes(ToStr(value), "T") && parseIso(ToStr(value)).Some? ==>
              r == Pad2(parseIso(ToStr(value)).value.hours) + ":" + Pad2(parseIso(ToStr(value)).value.minutes)
    ensures Truthy(value) && !IsClock(ToStr(value)) && !(Includes(ToStr(value), "T") && parseIso(ToStr(value)).Some?) ==>
              r == Fallback(fallback)
  {
    if !Truthy(value) then Fallback(fallback)
    else
      var s := ToStr(value);
      if IsClock(s) then PadStart(s, 5, '0')
      else if Includes(s, "T") && parseIso(s).Some? then
        Pad2(parseIso(s).value.hours) + ":" + Pad2(parseIso(s).value.minutes)
      else Fallback(fallback)
  }

  /** A clock is padded to `HH:MM` and left otherwise as it was. */
  lemma ClockPadded(s: string)
    requires IsClock(s)
    ensures IsPaddedClock(PadStart(s, 5, '0'))
    ensures |s| == 5 ==> PadStart(s, 5, '0') == s
    ensures |s| == 4 ==> PadStart(s, 5, '0') == "0" + s
  {
  }

  /** With a clock or no fallback and a date reader that yields times of
      day, every formatted window is an `HH:MM` clock. */
  lemma {:induction false} FormatTime24IsClock(value: Js, fallback: string, parseIso: string -> Option<UtcTime>)
    requires fallback == "" || IsPaddedClock(fallback)
    requires forall s :: parseIso(s).Some? ==> 0 <= parseIso(s).value.hours < 24 && 0 <= parseIso(s).value.minutes < 60
    ensures IsPaddedClock(FormatTime24(value, fallback, parseIso))
  {
    if Truthy(value) {
      var s := ToStr(value);
      if IsClock(s) {
        ClockPadded(s);
      }
    }
  }

  /** Formatting a formatted window again changes nothing. */
  lemma FormatTime24Idempotent(r: string, fallback: string, parseIso: string -> Option<UtcTime>)
    requires IsPaddedClock(r)
    ensures FormatTime24(Str(r), fallback, parseIso) == r
  {
    ClockPadded(r);
  }

  /** A string with a `T` that is no date: the code as written shows
      `NaN:NaN`, the intended reading falls back. */
  lemma InvalidDateText(parseIso: string -> Option<UtcTime>)
    requires parseIso("TBD") == None
    ensures FormatTime24AsWritten(Str("TBD"), "08:00", parseIso) == "NaN:NaN"
    ensures FormatTime24(Str("TBD"), "08:00", parseIso) == "08:00"
  {
    assert OccursAt("TBD", "T", 0);
  }

  /** The two readings agree on every input that is not an unreadable
      string containing `T`. */
  lemma FormatTime24Agrees(value: Js, fallback: string, parseIso: string -> Option<UtcTime>)
    requires !(Truthy(value) && !IsClock(ToStr(value)) && Includes(ToStr(value), "T") && parseIso(ToStr(value)).None?)
    ensures FormatTime24AsWritten(value, fallback, parseIso) == FormatTime24(value, fallback, parseIso)
  {
  }

  /** One device row as `loadDevices` stores it. */
  function NormalizeDevice(d: RawDevice, parseIso: string -> Option<UtcTime>): (r: Device)
    ensures r.active <==> NormalizeActive(d.active)
    ensures r.esp32Id == d.esp32Id && r.houseId == d.houseId && r.tokenType == d.tokenType
    ensures r.location == d.location && r.lastSeen == d.lastSeen
    ensures r.timeWindowStart == FormatTime24(d.timeWindowStart, "08:00", parseIso)
    ensures r.timeWindowEnd == FormatTime24(d.timeWindowEnd, "23:00", parseIso)
  {
    Device(d.esp32Id, d.houseId, d.tokenType, d.location, NormalizeActive(d.active), d.lastSeen,
           FormatTime24(d.timeWindowStart, "08:00", parseIso),
           FormatTime24(d.timeWindowEnd, "23:00", parseIso))
  }

  function NormalizeAll(ds: seq<RawDevice>, parseIso: string -> Option<UtcTime>): (r: seq<Device>)
    ensures |r| == |ds|
    ensures forall i :: 0 <= i < |ds| ==> r[i] == NormalizeDevice(ds[i], parseIso)
  {
    seq(|ds|, i requires 0 <= i < |ds| => NormalizeDevice(ds[i], parseIso))
  }

  /** With a date reader that yields times of day, both windows of a
      stored device are `HH:MM` clocks. */
  lemma StoredWindowsAreClocks(d: RawDevice, parseIso: string -> Option<UtcTime>)
    requires forall s :: parseIso(s).Some? ==> 0 <= parseIso(s).value.hours < 24 && 0 <= parseIso(s).value.minutes < 60
    ensures IsPaddedClock(NormalizeDevice(d, parseIso).timeWindowStart)
    ensures IsPaddedClock(NormalizeDevice(d, parseIso).timeWindowEnd)
  {
    FormatTime24IsClock(d.timeWindowStart, "08:00", parseIso);
    FormatTime24IsClock(d.timeWindowEnd, "23:00", parseIso);
  }

  /** The email the device query is scoped to: an ADMIN's own, and none
      for any other role or without a session. */
  function ScopeEmail(auth: Auth.AuthStore): (r: Option<string>)
    reads auth
    ensures r.Some? <==> auth.currentUser.Some? && auth.currentUser.value.role == Config.Admin
    ensures r.Some? ==> r.value == auth.currentUser.value.email
  {
    if auth.HasRole(Config.Admin) && !auth.IsMaster() then Some(auth.currentUser.value.email) else None
  }

  // ---------------------------------------------------------------------
  // Table filters

  /** The four filter dropdowns; `""` means "all". */
  datatype DeviceFilters = DeviceFilters(house: string, tokenType: string, status: string, connection: string)

  /** The single-filter steps of `renderDevices`. */
  function Everything(d: Device): bool { true }

  function HouseStep(f: DeviceFilters): Device -> bool {
    (d: Device) => d.houseId == f.house
  }

  function TypeStep(f: DeviceFilters): Device -> bool {
    (d: Device) => d.tokenType == f.tokenType
  }

  function StatusStep(f: DeviceFilters): Device -> bool {
    (d: Device) => d.active == (f.status == Config.Active)
  }

  function ConnectionStep(f: DeviceFilters, now: int): Device -> bool {
    (d: Device) => Utils.IsDeviceOnline(d.lastSeen, now) == (f.connection == "ONLINE")
  }

  /** One step of `renderDevices`: the list kept so far, narrowed by
      `step` when its filter is set, is the list kept by `next`. */
  method NarrowStep(all: seq<Device>, kept: seq<Device>, active: bool,
                    prev: Device -> bool, step: Device -> bool, next: Device -> bool) returns (r: seq<Device>)
    requires kept == Filter(all, prev)
    requires forall d :: next(d) == (prev(d) && (!active || step(d)))
    ensures r == Filter(all, next)
  {
    r := kept;
    if active {
      r := Filter(kept, step);
    }
    NarrowBy(all, active, prev, step, next);
  }

  function ByHouse(f: DeviceFilters): Device -> bool {
    (d: Device) => f.house == "" || d.houseId == f.house
  }

  function ByHouseType(f: DeviceFilters): Device -> bool {
    (d: Device) => (f.house == "" || d.houseId == f.house) && (f.tokenType == "" || d.tokenType == f.tokenType)
  }

  function ByHouseTypeStatus(f: DeviceFilters): Device -> bool {
    (d: Device) => (f.house == "" || d.houseId == f.house) && (f.tokenType == "" || d.tokenType == f.tokenType)
      && (f.status == "" || d.active == (f.status == Config.Active))
  }

  /** A device is listed when it passes every non-empty filter: the same
      house, the same token type, active exactly when the status filter is
      ACTIVO, online exactly when the connection filter is ONLINE. */
  predicate Shown(f: DeviceFilters, now: int, d: Device) {
    && (f.house == "" || d.houseId == f.house)
    && (f.tokenType == "" || d.tokenType == f.tokenType)
    && (f.status == "" || d.active == (f.status == Config.Active))
    && (f.connection == "" || Utils.IsDeviceOnline(d.lastSeen, now) == (f.connection == "ONLINE"))
  }

  function ByAll(f: DeviceFilters, now: int): Device -> bool {
    (d: Device) => Shown(f, now, d)
  }

  /** With every filter empty the whole list is shown. */
  lemma NoFilterShowsAll(devices: seq<Device>, now: int)
    ensures Filter(devices, ByAll(DeviceFilters("", "", "", ""), now)) == devices
  {
    FilterAll(devices, ByAll(DeviceFilters("", "", "", ""), now));
  }

  /** The listed devices keep the stored order. */
  lemma ShownKeepsOrder(devices: seq<Device>, f: DeviceFilters, now: int)
    ensures IsSubsequence(Filter(devices, ByAll(f, now)), devices)
  {
    FilterIsSubsequence(devices, ByAll(f, now));
  }

  /** Whether the token type `code` is inactive: the first token type with
      that code has status INACTIVO. */
  predicate IsTokenTypeInactive(tokenTypes: seq<TokenType>, code: string) {
    var t := FindFirst(tokenTypes, (t: TokenType) => t.code == code);
    t.Some? && t.value.status == Config.Inactive
  }

  predicate UniqueCodes(tokenTypes: seq<TokenType>) {
    forall i, j :: 0 <= i < j < |tokenTypes| ==> tokenTypes[i].code != tokenTypes[j].code
  }

  /** With distinct codes the lookup is exactly "some token type with this
      code is INACTIVO"; an unknown code is never inactive. */
  lemma {:induction false} InactiveIffSome(tokenTypes: seq<TokenType>, code: string)
    requires UniqueCodes(tokenTypes)
    ensures IsTokenTypeInactive(tokenTypes, code) <==>
              exists k :: 0 <= k < |tokenTypes| && tokenTypes[k].code == code && tokenTypes[k].status == Config.Inactive
  {
    var t := FindFirst(tokenTypes, (t: TokenType) => t.code == code);
    if t.Some? {
      var i :| 0 <= i < |tokenTypes| && tokenTypes[i] == t.value && tokenTypes[i].code == code;
    }
  }

  /** The same code listed twice, active first: the first entry decides. */
  lemma FirstEntryDecides()
    ensures !IsTokenTypeInactive([TokenType("A", Config.Active), TokenType("A", Config.Inactive)], "A")
  {
  }

  // ---------------------------------------------------------------------
  // Operating time of a window

  /** The minutes from midnight of an `H:MM` or `HH:MM` clock. */
  function ClockMinutes(s: string): (r: int)
    requires IsClock(s)
    ensures 0 <= r <= 99 * 60 + 99
  {
    var d := (c: char) requires IsDigit(c) => c as int - '0' as int;
    if |s| == 4 then d(s[0]) * 60 + d(s[2]) * 10 + d(s[3])
    else (d(s[0]) * 10 + d(s[1])) * 60 + d(s[3]) * 10 + d(s[4])
  }

  /** JavaScript `a % b` for a positive `b`: the remainder of the
      division truncated toward zero, so its sign follows `a`. */
  function JsRem(a: int, b: int): (r: int)
    requires b > 0
    ensures a >= 0 ==> 0 <= r < b
    ensures a <= 0 ==> -b < r <= 0
    ensures (a - r) % b == 0
  {
    if a >= 0 then
      RemOfNonNegative(a, b);
      a % b
    else
      RemOfNegative(a, b);
      -((-a) % b)
  }

  lemma RemOfNonNegative(a: int, b: int)
    requires a >= 0 && b > 0
    ensures 0 <= a % b < b && (a - a % b) % b == 0
  {
    assert a - a % b == b * (a / b);
    MultipleHasNoRemainder(b, a / b);
  }

  lemma RemOfNegative(a: int, b: int)
    requires a < 0 && b > 0
    ensures -b < -((-a) % b) <= 0 && (a + (-a) % b) % b == 0
  {
    var q := (-a) / b;
    assert -a == b * q + (-a) % b;
    assert a + (-a) % b == b * (-q);
    MultipleHasNoRemainder(b, -q);
  }

  lemma MultipleHasNoRemainder(b: int, k: int)
    requires b > 0
    ensures (b * k) % b == 0
  {
    Utils.DivUnique(b * k, b, k, 0);
  }

  /** The length of a window in minutes: end minus start, plus a day when
      the window runs past midnight. */
  function OperatingMinutes(start: int, end: int): int {
    var diff := end - start;
    if diff < 0 then diff + 24 * 60 else diff
  }

  /** For times of day, the operating time is the one duration under a
      day that leads from the start to the end around the clock. */
  lemma OperatingMinutesCircular(start: int, end: int)
    requires 0 <= start < 1440 && 0 <= end < 1440
    ensures 0 <= OperatingMinutes(start, end) < 1440
    ensures (start + OperatingMinutes(start, end)) % 1440 == end
  {
  }

  /** No other duration under a day leads from the start to the end. */
  lemma OperatingMinutesUnique(start: int, end: int, d: int)
    requires 0 <= start < 1440 && 0 <= end < 1440
    requires 0 <= d < 1440 && (start + d) % 1440 == end
    ensures d == OperatingMinutes(start, end)
  {
    if start + d < 1440 {
      assert (start + d) % 1440 == start + d;
    } else {
      assert (start + d) % 1440 == start + d - 1440;
    }
  }

  /** The displayed operating time: hours and minutes of the window. */
  datatype Duration = Duration(hours: int, minutes: int)

  function OperatingTime(startText: string, endText: string): (r: Duration)
    requires IsClock(startText) && IsClock(endText)
  {
    var diff := OperatingMinutes(ClockMinutes(startText), ClockMinutes(endText));
    Duration(diff / 60, JsRem(diff, 60))
  }

  /** For windows within the day the duration is under 24 hours, its
      minutes under 60, and it adds up to the window's length. */
  lemma OperatingTimeSplits(startText: string, endText: string)
    requires IsClock(startText) && IsClock(endText)
    requires ClockMinutes(startText) < 1440 && ClockMinutes(endText) < 1440
    ensures var r := OperatingTime(startText, endText);
            && 0 <= r.hours < 24 && 0 <= r.minutes < 60
            && r.hours * 60 + r.minutes == OperatingMinutes(ClockMinutes(startText), ClockMinutes(endText))
  {
    OperatingMinutesCircular(ClockMinutes(startText), ClockMinutes(endText));
  }

  /** An overnight window, 22:00 to 06:00, runs eight hours. */
  lemma OvernightWindow()
    ensures OperatingTime("22:00", "06:00") == Duration(8, 0)
  {
  }

  // ---------------------------------------------------------------------
  // The view

  class DevicesView {
    var devices: seq<Device>
    var tokenTypes: seq<TokenType>
    /** The rows last listed in the table. */
    var filtered: seq<Device>

    constructor()
      ensures devices == [] && tokenTypes == [] && filtered == []
    {
      devices := [];
      tokenTypes := [];
      filtered := [];
    }

    /** Queries the devices, scoped to an ADMIN's houses, and stores them
        normalised; a failed query or an answer without a list stores none.
        Either way the table is then redrawn under the current filters.
        Returns the scope the query was sent with. */
    method LoadDevices(auth: Auth.AuthStore, resp: DevicesResponse, parseIso: string -> Option<UtcTime>,
                       f: DeviceFilters, now: int)
      returns (scope: Option<string>)
      modifies this`devices, this`filtered
      ensures scope == ScopeEmail(auth)
      ensures resp.Reply? && resp.devices.Some? ==> devices == NormalizeAll(resp.devices.value, parseIso)
      ensures !(resp.Reply? && resp.devices.Some?) ==> devices == []
      ensures filtered == Filter(devices, ByAll(f, now))
    {
      scope := ScopeEmail(auth);
      match resp {
        case Failure => devices := [];
        case Reply(ds) => devices := NormalizeAll(ds.GetOr([]), parseIso);
      }
      RenderDevices(f, now);
    }

    /** Lists the devices that pass the filters, narrowing the list one
        non-empty filter at a time. */
    method RenderDevices(f: DeviceFilters, now: int)
      modifies this`filtered
      ensures filtered == Filter(devices, ByAll(f, now))
    {
      FilterAll(devices, Everything);
      var fd := NarrowStep(devices, devices, f.house != "", Everything, HouseStep(f), ByHouse(f));
      fd := NarrowStep(devices, fd, f.tokenType != "", ByHouse(f), TypeStep(f), ByHouseType(f));
      fd := NarrowStep(devices, fd, f.status != "", ByHouseType(f), StatusStep(f), ByHouseTypeStatus(f));
      fd := NarrowStep(devices, fd, f.connection != "", ByHouseTypeStatus(f), ConnectionStep(f, now), ByAll(f, now));
      filtered := fd;
    }

    /** The toggle request for a device: its negated flag once the user
        confirms; nothing for an unknown device or a cancelled dialog. */
    method ToggleStatus(esp32Id: string, confirmed: bool) returns (request: Option<(string, bool)>)
      ensures request.Some? <==> confirmed && exists i :: 0 <= i < |devices| && devices[i].esp32Id == esp32Id
      ensures request.Some? ==>
                request.value.0 == esp32Id
                && exists i :: (0 <= i < |devices| && devices[i].esp32Id == esp32Id && request.value.1 == !devices[i].active
                                && forall j :: 0 <= j < i ==> devices[j].esp32Id != esp32Id)
    {
      var device := FindFirst(devices, (d: Device) => d.esp32Id == esp32Id);
      if device.None? || !confirmed {
        return None;
      }
      return Some((esp32Id, !device.value.active));
    }
  }
}
