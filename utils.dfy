/*
 * The console's shared helpers: CSV export, the email shape check, the
 * online threshold, relative-time buckets and the event label maps.
 * Timestamps are integer milliseconds and "now" is an argument.
 */
module Utils {
  import opened JsValues
  import opened Strings
  import Config

  // ---------------------------------------------------------------------
  // CSV export

  /** A backend record: its fields in insertion order, as `Object.keys`
      lists them. */
  type Row = seq<(string, Js)>

  function Keys(row: Row): (ks: seq<string>)
    ensures |ks| == |row|
    ensures forall i :: 0 <= i < |row| ==> ks[i] == row[i].0
  {
    seq(|row|, i requires 0 <= i < |row| => row[i].0)
  }

  /** `row[h]`: the value stored under `h`, `undefined` when absent. */
  function Lookup(row: Row, h: string): (v: Js)
    ensures v != Null ==> exists i :: 0 <= i < |row| && row[i] == (h, v)
    decreases |row|
  {
    if row == [] then Null
    else if row[0].0 == h then row[0].1
    else Lookup(row[1..], h)
  }

  /** `s.replace(/"/g, '""')`. */
  function DoubleQuotes(s: string): (r: string)
    ensures |r| >= |s|
    ensures '"' in s ==> |r| > |s|
    ensures forall c :: c in r ==> c in s
    decreases |s|
  {
    if s == [] then ""
    else if s[0] == '"' then "\"\"" + DoubleQuotes(s[1..])
    else [s[0]] + DoubleQuotes(s[1..])
  }

  /** One CSV field: falsy values become empty; a string holding a comma or
      a quote is wrapped in quotes with its quotes doubled (section 2,
      items 6 and 7, of RFC 4180, without the line-break rule); any other
      value is rendered as it is. */
  function CsvCell(v: Js): (r: string)
    ensures !Truthy(v) ==> r == ""
    ensures Truthy(v) && v.Str? && (',' in v.s || '"' in v.s) ==> r == "\"" + DoubleQuotes(v.s) + "\""
    ensures Truthy(v) && !(v.Str? && (',' in v.s || '"' in v.s)) ==> r == ToStr(v)
  {
    if !Truthy(v) then ""
    else if v.Str? && (',' in v.s || '"' in v.s) then "\"" + DoubleQuotes(v.s) + "\""
    else ToStr(v)
  }

  /** The reading side of RFC 4180 quoting: outer quotes removed and each
      doubled quote collapsed. */
  function UnquoteCell(cell: string): string {
    if |cell| >= 2 && cell[0] == '"' && cell[|cell| - 1] == '"' then CollapseQuotes(cell[1..|cell| - 1])
    else cell
  }

  function CollapseQuotes(t: string): string
    decreases |t|
  {
    if t == [] then ""
    else if |t| >= 2 && t[0] == '"' && t[1] == '"' then "\"" + CollapseQuotes(t[2..])
    else [t[0]] + CollapseQuotes(t[1..])
  }

  lemma {:induction false} CollapseDoubled(s: string)
    ensures CollapseQuotes(DoubleQuotes(s)) == s
    decreases |s|
  {
    if s != [] {
      CollapseDoubled(s[1..]);
      if s[0] == '"' {
        assert ("\"\"" + DoubleQuotes(s[1..]))[2..] == DoubleQuotes(s[1..]);
      } else {
        assert ([s[0]] + DoubleQuotes(s[1..]))[1..] == DoubleQuotes(s[1..]);
      }
      assert [s[0]] + s[1..] == s;
    }
  }

  /** Every string field reads back as the string it was. */
  lemma CsvCellRoundTrip(s: string)
    ensures UnquoteCell(CsvCell(Str(s))) == s
  {
    if s != "" && (',' in s || '"' in s) {
      var q := "\"" + DoubleQuotes(s) + "\"";
      assert q[1..|q| - 1] == DoubleQuotes(s);
      CollapseDoubled(s);
    }
  }

  /** One data line: the row's fields under the header keys, comma-joined. */
  function RowLine(headers: seq<string>, row: Row): string {
    Join(seq(|headers|, i requires 0 <= i < |headers| => CsvCell(Lookup(row, headers[i]))), ",")
  }

  /** The lines of the export: the header line, then one line per row. */
  function CsvLines(data: seq<Row>): (lines: seq<string>)
    requires data != []
    ensures |lines| == |data| + 1
    ensures lines[0] == Join(Keys(data[0]), ",")
    ensures forall i :: 0 <= i < |data| ==> lines[i + 1] == RowLine(Keys(data[0]), data[i])
  {
    var headers := Keys(data[0]);
    [Join(headers, ",")] + seq(|data|, i requires 0 <= i < |data| => RowLine(headers, data[i]))
  }

  /** `exportToCsv`'s file text; nothing when there is no data. */
  function ExportCsv(data: seq<Row>): (r: Option<string>)
    ensures r.None? <==> data == []
    ensures r.Some? ==> r.value == Join(CsvLines(data), "\n")
  {
    if data == [] then None else Some(Join(CsvLines(data), "\n"))
  }

  lemma {:induction false} NoCharInJoin(xs: seq<string>, sep: string, c: char)
    requires c !in sep
    requires forall i :: 0 <= i < |xs| ==> c !in xs[i]
    ensures c !in Join(xs, sep)
    decreases |xs|
  {
    if |xs| > 1 {
      NoCharInJoin(xs[1..], sep, c);
    }
  }

  lemma NoCharInCell(v: Js, c: char)
    requires c != '"' && c !in ToStr(v)
    ensures c !in CsvCell(v)
  {
  }

  /** Keys and fields of a row without line breaks. */
  predicate NoLineBreaks(row: Row) {
    forall i :: 0 <= i < |row| ==> '\n' !in row[i].0 && '\n' !in ToStr(row[i].1)
  }

  /** A data line has no line break when neither the keys nor the row do. */
  lemma RowLineNoBreak(headers: seq<string>, row: Row)
    requires NoLineBreaks(row)
    ensures '\n' !in RowLine(headers, row)
  {
    var cells := seq(|headers|, i requires 0 <= i < |headers| => CsvCell(Lookup(row, headers[i])));
    forall i | 0 <= i < |headers| ensures '\n' !in cells[i] {
      var v := Lookup(row, headers[i]);
      if v != Null {
        var m :| 0 <= m < |row| && row[m] == (headers[i], v);
      }
      NoCharInCell(v, '\n');
    }
    NoCharInJoin(cells, ",", '\n');
  }

  /** When no key and no field contains a line break, the export splits
      back into exactly its header line and one line per row. */
  lemma {:induction false} CsvLineStructure(data: seq<Row>)
    requires data != []
    requires forall r :: 0 <= r < |data| ==> NoLineBreaks(data[r])
    ensures Split(ExportCsv(data).value, '\n') == CsvLines(data)
  {
    var lines := CsvLines(data);
    var headers := Keys(data[0]);
    assert forall i :: 0 <= i < |headers| ==> '\n' !in headers[i] by {
      forall i | 0 <= i < |headers| ensures '\n' !in headers[i] {
        assert headers[i] == data[0][i].0;
      }
    }
    NoCharInJoin(headers, ",", '\n');
    forall k | 1 <= k < |lines| ensures '\n' !in lines[k] {
      RowLineNoBreak(headers, data[k - 1]);
    }
    SplitJoin(lines, '\n');
  }

  /** A field holding a line break is written unquoted and splits the
      record over two lines. */
  lemma LineBreakSplitsRecord()
    ensures ExportCsv([[("k", Str("a\nb"))]]) == Some("k\na\nb")
    ensures |Split(ExportCsv([[("k", Str("a\nb"))]]).value, '\n')| == 3
  {
    var row: Row := [("k", Str("a\nb"))];
    var data: seq<Row> := [row];
    assert Keys(data[0]) == ["k"];
    assert Lookup(row, "k") == Str("a\nb");
    assert CsvCell(Str("a\nb")) == "a\nb";
    assert RowLine(["k"], row) == "a\nb" by {
      assert seq(1, i requires 0 <= i < 1 => CsvCell(Lookup(row, ["k"][i]))) == ["a\nb"];
    }
    assert CsvLines(data) == ["k", "a\nb"];
    assert Join(["k", "a\nb"], "\n") == "k\na\nb" by {
      assert ["k", "a\nb"][1..] == ["a\nb"];
    }
    SplitNoSeparator("b", '\n');
    SplitPrefix("a", "b", '\n');
    assert "a" + ['\n'] + "b" == "a\nb";
    SplitPrefix("k", "a\nb", '\n');
    assert "k" + ['\n'] + "a\nb" == "k\na\nb";
  }

  // ---------------------------------------------------------------------
  // Email shape

  /** A character `[^\s@]` accepts. */
  predicate Plain(c: char) {
    !IsJsSpace(c) && c != '@'
  }

  predicate AllPlain(s: string) {
    forall i :: 0 <= i < |s| ==> Plain(s[i])
  }

  /** The shape the email pattern describes: `local@domain.tld` with each
      part non-empty and free of white space and `@` (the domain itself may
      contain dots). */
  predicate EmailShape(s: string) {
    exists i, j :: 0 < i && i + 1 < j && j + 1 < |s| && s[i] == '@' && s[j] == '.'
      && AllPlain(s[..i]) && AllPlain(s[i + 1..j]) && AllPlain(s[j + 1..])
  }

  /** The index of the first `c` in `s`. */
  function IndexOf(s: string, c: char): (r: Option<nat>)
    ensures r.Some? ==> r.value < |s| && s[r.value] == c && c !in s[..r.value]
    ensures r.None? ==> c !in s
    decreases |s|
  {
    if s == [] then None
    else if s[0] == c then Some(0)
    else
      match IndexOf(s[1..], c)
      case None => None
      case Some(k) =>
        assert s[..k + 1] == [s[0]] + s[1..][..k];
        Some(k + 1)
  }

  /** `isValidEmail`: the first `@` splits off a non-empty local part;
      what follows has no white space or `@` and a dot that is neither its
      first nor its last character. */
  function IsValidEmail(s: string): bool {
    match IndexOf(s, '@')
    case None => false
    case Some(i) =>
      var d := s[i + 1..];
      i > 0 && AllPlain(s[..i]) && AllPlain(d) && |d| >= 3 && '.' in d[1..|d| - 1]
  }

  /** The check accepts exactly the strings of the pattern's shape. */
  lemma EmailCheckMatchesShape(s: string)
    ensures IsValidEmail(s) <==> EmailShape(s)
  {
    if IsValidEmail(s) {
      ValidEmailHasShape(s);
    }
    if EmailShape(s) {
      var i, j :| 0 < i && i + 1 < j && j + 1 < |s| && s[i] == '@' && s[j] == '.'
        && AllPlain(s[..i]) && AllPlain(s[i + 1..j]) && AllPlain(s[j + 1..]);
      ShapeIsValidEmail(s, i, j);
    }
  }

  lemma ValidEmailHasShape(s: string)
    requires IsValidEmail(s)
    ensures EmailShape(s)
  {
    var i := IndexOf(s, '@').value;
    var d := s[i + 1..];
    var k :| 0 <= k < |d[1..|d| - 1]| && d[1..|d| - 1][k] == '.';
    var j := i + 2 + k;
    assert s[j] == '.';
    var domain, tld := s[i + 1..j], s[j + 1..];
    forall m | 0 <= m < |domain| ensures Plain(domain[m]) {
      assert domain[m] == d[m];
    }
    forall m | 0 <= m < |tld| ensures Plain(tld[m]) {
      assert tld[m] == d[m + k + 2];
    }
    assert 0 < i && i + 1 < j && j + 1 < |s| && s[i] == '@' && s[j] == '.'
      && AllPlain(s[..i]) && AllPlain(s[i + 1..j]) && AllPlain(s[j + 1..]);
  }

  /** The first `@` of a string of the shape is the one between the local
      part and the domain. */
  lemma FirstAt(s: string, i: nat)
    requires i < |s| && s[i] == '@' && AllPlain(s[..i])
    ensures IndexOf(s, '@') == Some(i)
  {
    var r := IndexOf(s, '@');
    assert forall m :: 0 <= m < i ==> s[..i][m] == s[m];
  }

  lemma ShapeIsValidEmail(s: string, i: nat, j: nat)
    requires 0 < i && i + 1 < j && j + 1 < |s| && s[i] == '@' && s[j] == '.'
    requires AllPlain(s[..i]) && AllPlain(s[i + 1..j]) && AllPlain(s[j + 1..])
    ensures IsValidEmail(s)
  {
    FirstAt(s, i);
    var d := s[i + 1..];
    assert d[1..|d| - 1][j - i - 2] == '.';
    forall m | 0 <= m < |d| ensures Plain(d[m]) {
      if m < j - i - 1 {
        assert d[m] == s[i + 1..j][m];
      } else if m > j - i - 1 {
        assert d[m] == s[j + 1..][m - (j - i)];
      }
    }
  }

  // ---------------------------------------------------------------------
  // Time

  /** `isDeviceOnline`: a missing or unparsable last-seen time is offline;
      otherwise online when at most the threshold in minutes has elapsed. */
  function IsDeviceOnline(lastSeen: Option<int>, now: int): (r: bool)
    ensures lastSeen.None? ==> !r
    ensures lastSeen.Some? ==> (r <==> now - lastSeen.value <= 300000)
  {
    match lastSeen
    case None => false
    case Some(t) => now - t <= Config.OfflineThresholdMin * 60000
  }

  /** Online status only lapses as time passes; a device seen within the
      last five minutes, or with a last-seen time in the future, is
      online. */
  lemma OnlineMonotone(lastSeen: Option<int>, now: int, later: int)
    requires now <= later
    ensures IsDeviceOnline(lastSeen, later) ==> IsDeviceOnline(lastSeen, now)
    ensures lastSeen.Some? && 0 <= now - lastSeen.value <= 300000 ==> IsDeviceOnline(lastSeen, now)
    ensures lastSeen.Some? && now - lastSeen.value > 300000 ==> !IsDeviceOnline(lastSeen, now)
    ensures lastSeen.Some? && now < lastSeen.value ==> IsDeviceOnline(lastSeen, now)
  {
  }

  /** The buckets of `formatRelativeTime`. */
  datatype RelativeTime = Invalid | Moment | Minutes(m: int) | Hours(h: int) | Days(d: int) | Older

  /** The bucket for an elapsed time, following the chain of floored
      divisions from milliseconds to days. */
  function RelativeBucket(date: Option<int>, now: int): (r: RelativeTime)
    ensures date.None? <==> r == Invalid
    ensures date.Some? ==> (r == Moment <==> now - date.value < 60000)
    ensures r.Minutes? ==> 60000 <= now - date.value < 3600000 && r.m == (now - date.value) / 60000
    ensures r.Hours? ==> 3600000 <= now - date.value < 86400000 && r.h == (now - date.value) / 3600000
    ensures r.Days? ==> 86400000 <= now - date.value < 7 * 86400000 && r.d == (now - date.value) / 86400000
    ensures r == Older ==> now - date.value >= 7 * 86400000
  {
    match date
    case None => Invalid
    case Some(t) =>
      var diffMs := now - t;
      var diffSec := diffMs / 1000;
      var diffMin := diffSec / 60;
      var diffHour := diffMin / 60;
      var diffDay := diffHour / 24;
      NestedFloor(diffMs, 1000, 60);
      NestedFloor(diffMs, 60000, 60);
      NestedFloor(diffMs, 3600000, 24);
      if diffSec < 60 then Moment
      else if diffMin < 60 then Minutes(diffMin)
      else if diffHour < 24 then Hours(diffHour)
      else if diffDay < 7 then Days(diffDay)
      else Older
  }

  /** Flooring twice is flooring once by the product. */
  lemma NestedFloor(x: int, a: int, b: int)
    requires a > 0 && b > 0
    ensures (x / a) / b == x / (a * b)
  {
    var q, r1 := x / a, x % a;
    var p, r2 := q / b, q % b;
    Regroup(x, a, b, q, p, r1, r2);
    RemainderBound(a, b, r1, r2);
    DivUnique(x, a * b, p, a * r2 + r1);
  }

  /** Substituting the inner division into the outer one. */
  lemma Regroup(x: int, a: int, b: int, q: int, p: int, r1: int, r2: int)
    requires x == a * q + r1 && q == b * p + r2
    ensures x == (a * b) * p + (a * r2 + r1)
  {
    calc {
      x;
      a * q + r1;
      a * (b * p + r2) + r1;
      { assert a * (b * p + r2) == a * (b * p) + a * r2; }
      a * (b * p) + a * r2 + r1;
      { assert a * (b * p) == (a * b) * p; }
      (a * b) * p + (a * r2 + r1);
    }
  }

  /** The combined remainder stays below the combined divisor. */
  lemma RemainderBound(a: int, b: int, r1: int, r2: int)
    requires a > 0 && 0 <= r1 < a && 0 <= r2 < b
    ensures 0 <= a * r2 + r1 < a * b
  {
    assert a * r2 <= a * (b - 1);
    assert a * (b - 1) == a * b - a;
  }

  lemma DivUnique(x: int, d: int, q: int, r: int)
    requires d > 0 && 0 <= r < d && x == d * q + r
    ensures x / d == q
  {
    var q0 := x / d;
    var r0 := x % d;
    var k := q - q0;
    assert d * q - d * q0 == d * k;
    if k >= 1 {
      MulAtLeast(d, k);
    } else if k <= -1 {
      MulAtLeast(d, -k);
    }
  }

  lemma {:induction false} MulAtLeast(d: int, k: int)
    requires d > 0 && k >= 1
    ensures d * k >= d
    decreases k
  {
    if k > 1 {
      MulAtLeast(d, k - 1);
      assert d * k == d * (k - 1) + d;
    }
  }

  /** The text shown for a bucket; `formatted` is the date as the locale
      formatter renders it. */
  function RelativeText(b: RelativeTime, formatted: string): string {
    match b
    case Invalid => "-"
    case Moment => "hace un momento"
    case Minutes(m) => "hace " + IntToString(m) + " min"
    case Hours(h) => "hace " + IntToString(h) + "h"
    case Days(d) => "hace " + IntToString(d) + "d"
    case Older => formatted
  }

  function FormatRelativeTime(date: Option<int>, now: int, formatted: string): (r: string)
    ensures date.None? ==> r == "-"
    ensures date.Some? && now - date.value < 60000 ==> r == "hace un momento"
    ensures date.Some? && 60000 <= now - date.value < 3600000 ==> r == "hace " + IntToString((now - date.value) / 60000) + " min"
    ensures date.Some? && 3600000 <= now - date.value < 86400000 ==> r == "hace " + IntToString((now - date.value) / 3600000) + "h"
    ensures date.Some? && 86400000 <= now - date.value < 7 * 86400000 ==> r == "hace " + IntToString((now - date.value) / 86400000) + "d"
    ensures date.Some? && now - date.value >= 7 * 86400000 ==> r == formatted
  {
    RelativeText(RelativeBucket(date, now), formatted)
  }

  // ---------------------------------------------------------------------
  // Event labels

  function GetEventBadgeClass(eventType: string): (r: string)
    ensures r in {"badge-success", "badge-danger", "badge-warning", "badge-info"}
    ensures r == "badge-success" <==> eventType == Config.AccessGranted
    ensures r == "badge-danger" <==> eventType == Config.AccessDenied
    ensures r == "badge-warning" <==> eventType == Config.Error
  {
    if eventType == Config.AccessGranted then "badge-success"
    else if eventType == Config.AccessDenied then "badge-danger"
    else if eventType == Config.Error then "badge-warning"
    else "badge-info"
  }

  /** The display names of the device event types. */
  const EventTypeNames: map<string, string> := map[
    Config.AccessGranted := "Acceso Concedido",
    Config.AccessDenied := "Acceso Denegado",
    Config.InUse := "En Uso",
    Config.Error := "Error",
    Config.WifiDown := "WiFi Caído",
    Config.WifiRestored := "WiFi Restaurado",
    Config.DeviceRestarted := "Reinicio Dispositivo"
  ]

  function GetEventTypeName(eventType: string): (r: string)
    ensures eventType in EventTypeNames ==> r == EventTypeNames[eventType]
    ensures eventType !in EventTypeNames ==> r == eventType
  {
    if eventType in EventTypeNames then EventTypeNames[eventType] else eventType
  }
}
