/*
 * The access-log view: the fetched logs, four multi-select filters (house,
 * device, token type, event type) and the client-side filtering that
 * narrows the fetched list one dimension at a time.
 */
module Logs {
  import opened JsValues
  import opened Seqs
  import MultiSelect

  /** A log row; a field the backend left out is `None`. */
  datatype LogEntry = LogEntry(houseId: Option<string>, deviceId: Option<string>, tokenType: Option<string>, eventType: Option<string>)

  /** The backend's answer to a log query. */
  datatype LogsResponse = Failure | Reply(logs: Option<seq<LogEntry>>)

  /** The nine user-interaction event types offered by the event filter. */
  const EventTypes: seq<string> := [
    "ACCESS_GRANTED", "INACTIVE_USER", "INVALID_TOKEN_TYPE", "MASTERKEY_ACCESS",
    "MASTERKEY_ACCESS_OFFLINE", "NO_TOKENS", "NOT_IN_HOUSE_USER",
    "OUTSIDE_TIME_WINDOW", "UNREGISTERED_USER"
  ]

  /** Exact membership of a possibly absent field in a selection. */
  predicate Selects(sel: seq<string>, v: Option<string>) {
    v.Some? && v.value in sel
  }

  /** The house a log is filed under: its house id, or `''`. */
  function HouseKey(l: LogEntry): string {
    l.houseId.GetOr("")
  }

  /** One filter dimension: no restriction when the selection is empty. */
  predicate Passes(sel: seq<string>, key: string) {
    sel == [] || key in sel
  }

  predicate PassesOpt(sel: seq<string>, v: Option<string>) {
    sel == [] || Selects(sel, v)
  }

  /** A log satisfies every non-empty dimension. */
  predicate Keeps(sH: seq<string>, sD: seq<string>, sT: seq<string>, sE: seq<string>, l: LogEntry) {
    Passes(sH, HouseKey(l)) && PassesOpt(sD, l.deviceId) && PassesOpt(sT, l.tokenType) && PassesOpt(sE, l.eventType)
  }

  /** `applyFilters`: each non-empty dimension narrows the list in turn. */
  function ApplyFilters(logs: seq<LogEntry>, sH: seq<string>, sD: seq<string>, sT: seq<string>, sE: seq<string>): seq<LogEntry> {
    var f1 := if |sH| > 0 then Filter(logs, (l: LogEntry) => HouseKey(l) in sH) else logs;
    var f2 := if |sD| > 0 then Filter(f1, (l: LogEntry) => Selects(sD, l.deviceId)) else f1;
    var f3 := if |sT| > 0 then Filter(f2, (l: LogEntry) => Selects(sT, l.tokenType)) else f2;
    if |sE| > 0 then Filter(f3, (l: LogEntry) => Selects(sE, l.eventType)) else f3
  }

  /** A dimension that is skipped when empty is a filter that keeps
      everything in that case. */
  lemma Narrow(s: seq<LogEntry>, active: bool, q: LogEntry -> bool, p: LogEntry -> bool)
    requires forall x :: p(x) == (!active || q(x))
    ensures (if active then Filter(s, q) else s) == Filter(s, p)
  {
    if active {
      FilterCongruent(s, q, p);
    } else {
      FilterAll(s, p);
    }
  }

  /** The dimensions as predicates that keep everything when their
      selection is empty. */
  function ByHouse(sH: seq<string>): LogEntry -> bool {
    (l: LogEntry) => Passes(sH, HouseKey(l))
  }

  function ByDevice(sD: seq<string>): LogEntry -> bool {
    (l: LogEntry) => PassesOpt(sD, l.deviceId)
  }

  function ByToken(sT: seq<string>): LogEntry -> bool {
    (l: LogEntry) => PassesOpt(sT, l.tokenType)
  }

  function ByEvent(sE: seq<string>): LogEntry -> bool {
    (l: LogEntry) => PassesOpt(sE, l.eventType)
  }

  function ByHouseDevice(sH: seq<string>, sD: seq<string>): LogEntry -> bool {
    (l: LogEntry) => Passes(sH, HouseKey(l)) && PassesOpt(sD, l.deviceId)
  }

  function ByHouseDeviceToken(sH: seq<string>, sD: seq<string>, sT: seq<string>): LogEntry -> bool {
    (l: LogEntry) => Passes(sH, HouseKey(l)) && PassesOpt(sD, l.deviceId) && PassesOpt(sT, l.tokenType)
  }

  function ByAll(sH: seq<string>, sD: seq<string>, sT: seq<string>, sE: seq<string>): LogEntry -> bool {
    (l: LogEntry) => Keeps(sH, sD, sT, sE, l)
  }

  /** The chain of filters is one filter by the conjunction of the
      dimensions. */
  lemma ApplyFiltersIsOneFilter(logs: seq<LogEntry>, sH: seq<string>, sD: seq<string>, sT: seq<string>, sE: seq<string>)
    ensures ApplyFilters(logs, sH, sD, sT, sE) == Filter(logs, ByAll(sH, sD, sT, sE))
  {
    var f1 := if |sH| > 0 then Filter(logs, (l: LogEntry) => HouseKey(l) in sH) else logs;
    Narrow(logs, |sH| > 0, (l: LogEntry) => HouseKey(l) in sH, ByHouse(sH));
    var f2 := if |sD| > 0 then Filter(f1, (l: LogEntry) => Selects(sD, l.deviceId)) else f1;
    Narrow(f1, |sD| > 0, (l: LogEntry) => Selects(sD, l.deviceId), ByDevice(sD));
    var f3 := if |sT| > 0 then Filter(f2, (l: LogEntry) => Selects(sT, l.tokenType)) else f2;
    Narrow(f2, |sT| > 0, (l: LogEntry) => Selects(sT, l.tokenType), ByToken(sT));
    Narrow(f3, |sE| > 0, (l: LogEntry) => Selects(sE, l.eventType), ByEvent(sE));
    FilterFilterInto(logs, ByHouse(sH), ByDevice(sD), ByHouseDevice(sH, sD));
    FilterFilterInto(logs, ByHouseDevice(sH, sD), ByToken(sT), ByHouseDeviceToken(sH, sD, sT));
    FilterFilterInto(logs, ByHouseDeviceToken(sH, sD, sT), ByEvent(sE), ByAll(sH, sD, sT, sE));
  }

  /** Every kept log satisfies every non-empty dimension, and every log
      that does is kept. */
  lemma ApplyFiltersKeepsExactly(logs: seq<LogEntry>, sH: seq<string>, sD: seq<string>, sT: seq<string>, sE: seq<string>)
    ensures forall l :: l in ApplyFilters(logs, sH, sD, sT, sE) <==> l in logs && Keeps(sH, sD, sT, sE, l)
  {
    ApplyFiltersIsOneFilter(logs, sH, sD, sT, sE);
    var r := ApplyFilters(logs, sH, sD, sT, sE);
    forall l | l in logs && Keeps(sH, sD, sT, sE, l) ensures l in r {
      var i :| 0 <= i < |logs| && logs[i] == l;
    }
  }

  /** The filtered list is the fetched list with entries deleted, in order. */
  lemma ApplyFiltersKeepsOrder(logs: seq<LogEntry>, sH: seq<string>, sD: seq<string>, sT: seq<string>, sE: seq<string>)
    ensures IsSubsequence(ApplyFilters(logs, sH, sD, sT, sE), logs)
  {
    ApplyFiltersIsOneFilter(logs, sH, sD, sT, sE);
    FilterIsSubsequence(logs, ByAll(sH, sD, sT, sE));
  }

  /** With every selection empty nothing is filtered out. */
  lemma NoSelectionKeepsAll(logs: seq<LogEntry>)
    ensures ApplyFilters(logs, [], [], [], []) == logs
  {
  }

  /** The filter dimensions of the view. */
  datatype Dimension = HouseDim | DeviceDim | TokenDim | EventDim

  class LogsView {
    var logs: seq<LogEntry>
    var selectedHouses: seq<string>
    var selectedDevices: seq<string>
    var selectedTokenTypes: seq<string>
    var selectedEventTypes: seq<string>
    /** The rows last handed to the table. */
    var shown: seq<LogEntry>

    constructor()
      ensures logs == [] && shown == []
      ensures selectedHouses == [] && selectedDevices == [] && selectedTokenTypes == [] && selectedEventTypes == []
    {
      logs := [];
      selectedHouses := [];
      selectedDevices := [];
      selectedTokenTypes := [];
      selectedEventTypes := [];
      shown := [];
    }

    /** A checkbox change in one dropdown stores that dropdown's selection
        and leaves the others alone. */
    method OnChange(dim: Dimension, options: seq<string>, flags: seq<bool>)
      requires |flags| == |options|
      modifies this`selectedHouses, this`selectedDevices, this`selectedTokenTypes, this`selectedEventTypes
      ensures selectedHouses == (if dim == HouseDim then MultiSelect.Normalise(options, flags) else old(selectedHouses))
      ensures selectedDevices == (if dim == DeviceDim then MultiSelect.Normalise(options, flags) else old(selectedDevices))
      ensures selectedTokenTypes == (if dim == TokenDim then MultiSelect.Normalise(options, flags) else old(selectedTokenTypes))
      ensures selectedEventTypes == (if dim == EventDim then MultiSelect.Normalise(options, flags) else old(selectedEventTypes))
    {
      var checked := MultiSelect.Checked(options, flags);
      var sel := if |checked| == |options| then [] else checked;
      match dim
      case HouseDim => selectedHouses := sel;
      case DeviceDim => selectedDevices := sel;
      case TokenDim => selectedTokenTypes := sel;
      case EventDim => selectedEventTypes := sel;
    }

    /** Hands the table the logs that pass every selection. */
    method Apply()
      modifies this`shown
      ensures shown == ApplyFilters(logs, selectedHouses, selectedDevices, selectedTokenTypes, selectedEventTypes)
    {
      shown := ApplyFilters(logs, selectedHouses, selectedDevices, selectedTokenTypes, selectedEventTypes);
    }

    /** Stores the fetched logs (none when the request fails or the answer
        has no list) and filters them. */
    method LoadLogs(resp: LogsResponse)
      modifies this`logs, this`shown
      ensures resp.Reply? && resp.logs.Some? ==> logs == resp.logs.value
      ensures !(resp.Reply? && resp.logs.Some?) ==> logs == []
      ensures shown == ApplyFilters(logs, selectedHouses, selectedDevices, selectedTokenTypes, selectedEventTypes)
    {
      match resp {
        case Failure => logs := [];
        case Reply(l) => logs := l.GetOr([]);
      }
      Apply();
    }
  }
}
