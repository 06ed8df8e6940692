/*
 * The houses view: the device count of a house, the delete guard that
 * refuses houses with devices, the displayed address and the conversion
 * of Google Drive sharing links into thumbnail links.
 */
module Houses {
  import opened JsValues
  import opened Seqs
  import opened Strings
  import Auth
  import Devices

  /** A house row; the address parts are loosely typed spreadsheet cells. */
  datatype House = House(houseId: string, street: Js, number: Js, extra: Js, img: string)

  // ---------------------------------------------------------------------
  // Device count and the delete guard

  function OfHouse(houseId: string): Devices.RawDevice -> bool {
    (d: Devices.RawDevice) => d.houseId == houseId
  }

  /** `getDeviceCountForHouse`: the devices filed under the house. */
  function DeviceCount(devices: seq<Devices.RawDevice>, houseId: string): (n: nat)
    ensures n <= |devices|
    ensures n > 0 <==> exists i :: 0 <= i < |devices| && devices[i].houseId == houseId
    ensures n == |Filter(devices, OfHouse(houseId))|
  {
    Count(devices, OfHouse(houseId))
  }

  /** `deleteHouse`: the delete request is sent only with the permission,
      for a house without devices, once the user confirms. */
  method DeleteHouse(auth: Auth.AuthStore, devices: seq<Devices.RawDevice>, houseId: string, confirmed: bool)
    returns (requested: bool)
    ensures requested <==> auth.Can("houses.delete") && DeviceCount(devices, houseId) == 0 && confirmed
  {
    if !auth.Can("houses.delete") {
      return false;
    }
    var devCount := DeviceCount(devices, houseId);
    if devCount > 0 {
      return false;
    }
    if !confirmed {
      return false;
    }
    return true;
  }

  /** A house that still has a device is never deleted, whoever asks:
      `DeleteHouse` sends no request for it. */
  method HouseWithDeviceKept(devices: seq<Devices.RawDevice>, k: nat, auth: Auth.AuthStore, confirmed: bool)
    returns (requested: bool)
    requires k < |devices|
    ensures DeviceCount(devices, devices[k].houseId) > 0
    ensures !requested
  {
    requested := DeleteHouse(auth, devices, devices[k].houseId, confirmed);
  }

  /** Only a MASTER session may delete houses. */
  lemma OnlyMasterDeletesHouses(auth: Auth.AuthStore)
    ensures auth.Can("houses.delete") <==> auth.currentUser.Some? && auth.currentUser.value.role == "MASTER"
  {
  }

  // ---------------------------------------------------------------------
  // Address

  /** The text of a cell that `filter(Boolean)` keeps. */
  lemma TruthyText(v: Js)
    requires Truthy(v)
    ensures ToStr(v) != ""
  {
  }

  /** One cell's contribution to the address: its text when it is
      truthy, nothing otherwise. */
  function Part(v: Js): seq<string> {
    if Truthy(v) then [ToStr(v)] else []
  }

  /** The address parts shown: street, number and extra, in that order,
      leaving out the empty ones. */
  function AddressParts(h: House): (r: seq<string>)
    ensures r == Part(h.street) + Part(h.number) + Part(h.extra)
    ensures forall i :: 0 <= i < |r| ==> r[i] != ""
  {
    var kept := Filter([h.street, h.number, h.extra], Truthy);
    var r := Map(kept, ToStr);
    assert forall i :: 0 <= i < |r| ==> r[i] != "" by {
      forall i | 0 <= i < |r| ensures r[i] != "" {
        TruthyText(kept[i]);
      }
    }
    KeptParts(h.street, h.number, h.extra);
    r
  }

  lemma KeptParts(a: Js, b: Js, c: Js)
    ensures Map(Filter([a, b, c], Truthy), ToStr) == Part(a) + Part(b) + Part(c)
  {
    FilterThree(a, b, c);
    MapAppend(Kept(a) + Kept(b), Kept(c), ToStr);
    MapAppend(Kept(a), Kept(b), ToStr);
    MapKept(a);
    MapKept(b);
    MapKept(c);
  }

  lemma MapKept(x: Js)
    ensures Map(Kept(x), ToStr) == Part(x)
  {
  }

  lemma FilterThree(a: Js, b: Js, c: Js)
    ensures Filter([a, b, c], Truthy) == Kept(a) + Kept(b) + Kept(c)
  {
    assert [a, b, c] == [a] + [b] + [c];
    FilterAppend([a] + [b], [c], Truthy);
    FilterAppend([a], [b], Truthy);
    FilterOne(a);
    FilterOne(b);
    FilterOne(c);
  }

  lemma FilterOne(x: Js)
    ensures Filter([x], Truthy) == Kept(x)
  {
    assert [x][1..] == [];
  }

  function Kept(v: Js): seq<Js> {
    if Truthy(v) then [v] else []
  }

  /** The displayed address: the parts joined by single spaces. It is
      empty exactly when every part is, and starts with the first part
      present. */
  function Address(h: House): (r: string)
    ensures r == "" <==> !Truthy(h.street) && !Truthy(h.number) && !Truthy(h.extra)
    ensures AddressParts(h) != [] ==> AddressParts(h)[0] <= r
  {
    Join(AddressParts(h), " ")
  }

  /** An address without inner spaces reads back as its parts. */
  lemma AddressSplits(h: House)
    requires AddressParts(h) != []
    requires forall i :: 0 <= i < |AddressParts(h)| ==> ' ' !in AddressParts(h)[i]
    ensures Split(Address(h), ' ') == AddressParts(h)
  {
    SplitJoin(AddressParts(h), ' ');
  }

  /** A concrete address: street and number, no extra. */
  lemma AddressExample()
    ensures Address(House("C1", Str("Main"), Num(12), Null, "")) == "Main 12"
  {
    assert NatToString(12) == "12";
    assert Filter([Str("Main"), Num(12), Null], Truthy) == [Str("Main"), Num(12)];
  }

  // ---------------------------------------------------------------------
  // Google Drive image links

  /** `[a-zA-Z0-9_-]`. */
  predicate IsIdChar(c: char) {
    ('a' <= c <= 'z') || ('A' <= c <= 'Z') || ('0' <= c <= '9') || c == '_' || c == '-'
  }

  /** `/file/d/` followed by an id character starts at `i`. */
  predicate FileIdAt(s: string, i: nat) {
    i + 9 <= |s| && s[i..i + 8] == "/file/d/" && IsIdChar(s[i + 8])
  }

  /** `?id=` or `&id=` followed by an id character starts at `i`. */
  predicate IdParamAt(s: string, i: nat) {
    i + 5 <= |s| && (s[i] == '?' || s[i] == '&') && s[i + 1..i + 4] == "id=" && IsIdChar(s[i + 4])
  }

  /** The two link shapes that carry a file id. */
  datatype Pattern = FilePath | IdParam

  predicate PatternAt(s: string, pat: Pattern, i: nat) {
    match pat
    case FilePath => FileIdAt(s, i)
    case IdParam => IdParamAt(s, i)
  }

  /** The leftmost index from `from` on where the pattern matches. */
  function FirstMatch(s: string, pat: Pattern, from: nat): (r: Option<nat>)
    ensures r.Some? ==> from <= r.value < |s| && PatternAt(s, pat, r.value) && forall j :: from <= j < r.value ==> !PatternAt(s, pat, j)
    ensures r.None? ==> forall j :: from <= j < |s| ==> !PatternAt(s, pat, j)
    decreases |s| - from
  {
    if from >= |s| then None
    else if PatternAt(s, pat, from) then Some(from)
    else FirstMatch(s, pat, from + 1)
  }

  /** The pattern matches at `i` and nowhere before. */
  predicate LeftmostAt(s: string, pat: Pattern, i: nat) {
    i < |s| && PatternAt(s, pat, i) && forall j :: 0 <= j < i ==> !PatternAt(s, pat, j)
  }

  /** The end of the run of id characters that starts at `j`. */
  function RunEnd(s: string, j: nat): (k: nat)
    requires j <= |s|
    ensures j <= k <= |s|
    ensures forall m :: j <= m < k ==> IsIdChar(s[m])
    ensures k == |s| || !IsIdChar(s[k])
    decreases |s| - j
  {
    if j < |s| && IsIdChar(s[j]) then RunEnd(s, j + 1) else j
  }

  /** The file id of a Drive link: the id after the leftmost `/file/d/`,
      else the id after the leftmost `?id=`/`&id=`; greedy in both. */
  function DriveFileId(url: string): (r: Option<string>)
    ensures r.None? <==> forall i :: 0 <= i < |url| ==> !FileIdAt(url, i) && !IdParamAt(url, i)
    ensures r.Some? ==> r.value != [] && forall m :: 0 <= m < |r.value| ==> IsIdChar(r.value[m])
    ensures (exists i :: 0 <= i < |url| && FileIdAt(url, i)) ==>
              exists i: nat :: LeftmostAt(url, FilePath, i) && r == Some(url[i + 8..RunEnd(url, i + 8)])
    ensures (forall i :: 0 <= i < |url| ==> !FileIdAt(url, i)) && (exists i :: 0 <= i < |url| && IdParamAt(url, i)) ==>
              exists i: nat :: LeftmostAt(url, IdParam, i) && r == Some(url[i + 4..RunEnd(url, i + 4)])
  {
    var file := FirstMatch(url, FilePath, 0);
    if file.Some? then
      assert LeftmostAt(url, FilePath, file.value);
      Some(url[file.value + 8..RunEnd(url, file.value + 8)])
    else
      assert forall j :: 0 <= j < |url| ==> !FileIdAt(url, j) by {
        forall j | 0 <= j < |url| ensures !FileIdAt(url, j) {
          assert !PatternAt(url, FilePath, j);
        }
      }
      var param := FirstMatch(url, IdParam, 0);
      if param.Some? then
        assert LeftmostAt(url, IdParam, param.value);
        Some(url[param.value + 4..RunEnd(url, param.value + 4)])
      else
        assert forall j :: 0 <= j < |url| ==> !IdParamAt(url, j) by {
          forall j | 0 <= j < |url| ensures !IdParamAt(url, j) {
            assert !PatternAt(url, IdParam, j);
          }
        }
        None
  }

  /** The fixed start of a Drive thumbnail link, up to the id. */
  const ThumbnailPrefix := "https://drive.google.com/thumbnail?id="

  function Thumbnail(id: string): string {
    ThumbnailPrefix + id + "&sz=w400"
  }

  /** `getDriveImageUrl`: the thumbnail link of a Drive file, the empty
      string for no link, and any other link unchanged. */
  function GetDriveImageUrl(url: string): (r: string)
    ensures url == "" ==> r == ""
    ensures DriveFileId(url).None? ==> r == url
    ensures DriveFileId(url).Some? ==> r == Thumbnail(DriveFileId(url).value)
  {
    if url == "" then ""
    else
      match DriveFileId(url)
      case Some(id) => Thumbnail(id)
      case None => url
  }

  /** Scheme, domain and path letters: none is a separator. */
  predicate PlainChar(c: char) {
    'a' <= c <= 'z' || c == '.' || c == ':'
  }

  lemma PrefixPlain(k: nat)
    requires k < 34 && k != 6 && k != 7 && k != 24
    ensures PlainChar(ThumbnailPrefix[k])
  {
  }

  /** The separators of the fixed start of a thumbnail link. */
  lemma PrefixSeparators(k: nat)
    requires k < 38
    ensures ThumbnailPrefix[k] == '/' ==> k == 6 || k == 7 || k == 24
    ensures ThumbnailPrefix[k] != '?' || k == 34
    ensures ThumbnailPrefix[k] != '&'
  {
    if k < 34 && k != 6 && k != 7 && k != 24 {
      PrefixPlain(k);
    }
  }

  /** Where a thumbnail link has its separators: the three slashes of the
      host part, the `?` of the query and the `&` after the id. */
  lemma ThumbnailSeparators(id: string, k: nat)
    requires forall m :: 0 <= m < |id| ==> IsIdChar(id[m])
    requires k < |Thumbnail(id)|
    ensures Thumbnail(id)[k] == '/' ==> k == 6 || k == 7 || k == 24
    ensures Thumbnail(id)[k] == '?' ==> k == 34
    ensures Thumbnail(id)[k] == '&' ==> k == 38 + |id|
  {
    var s := Thumbnail(id);
    var prefix, tail := ThumbnailPrefix, "&sz=w400";
    assert s == prefix + id + tail;
    if k < 38 {
      assert s[k] == prefix[k];
      PrefixSeparators(k);
    } else if k < 38 + |id| {
      assert s[k] == id[k - 38];
    } else if k > 38 + |id| {
      assert s[k] == tail[k - 38 - |id|];
      assert '/' !in tail[1..] && '?' !in tail[1..] && '&' !in tail[1..];
      assert tail[k - 38 - |id|] == tail[1..][k - 39 - |id|];
    }
  }

  /** The leftmost match is the first position where the pattern holds. */
  lemma FirstMatchAt(s: string, pat: Pattern, from: nat, p: nat)
    requires from <= p < |s| && PatternAt(s, pat, p)
    requires forall j :: from <= j < p ==> !PatternAt(s, pat, j)
    ensures FirstMatch(s, pat, from) == Some(p)
  {
  }

  /** A thumbnail link has no `/file/d/` path. */
  lemma ThumbnailHasNoFilePath(id: string)
    requires forall m :: 0 <= m < |id| ==> IsIdChar(id[m])
    ensures forall i :: 0 <= i < |Thumbnail(id)| ==> !FileIdAt(Thumbnail(id), i)
  {
    var s := Thumbnail(id);
    forall i | 0 <= i < |s| ensures !FileIdAt(s, i) {
      if i + 9 <= |s| {
        assert s[i..i + 8][0] == s[i];
        if s[i] == '/' {
          ThumbnailSeparators(id, i);
          ThumbnailSeparators(id, i + 5);
          assert s[i..i + 8][5] == s[i + 5] != '/';
        }
      }
    }
  }

  /** The first `?id=` of a thumbnail link is its query. */
  lemma ThumbnailQuery(id: string)
    requires id != [] && forall m :: 0 <= m < |id| ==> IsIdChar(id[m])
    ensures FirstMatch(Thumbnail(id), IdParam, 0) == Some(34)
  {
    var s := Thumbnail(id);
    assert s == ThumbnailPrefix + id + "&sz=w400";
    assert IdParamAt(s, 34) by {
      assert s[34] == '?' && s[35..38] == "id=" && s[38] == id[0];
    }
    forall j | 0 <= j < 34 ensures !PatternAt(s, IdParam, j) {
      ThumbnailSeparators(id, j);
    }
    FirstMatchAt(s, IdParam, 0, 34);
  }

  /** The id run of a thumbnail link ends at the `&` after the id. */
  lemma ThumbnailIdRun(id: string)
    requires forall m :: 0 <= m < |id| ==> IsIdChar(id[m])
    ensures RunEnd(Thumbnail(id), 38) == 38 + |id|
    ensures Thumbnail(id)[38..38 + |id|] == id
  {
    var s := Thumbnail(id);
    assert s == ThumbnailPrefix + id + "&sz=w400";
    assert s[38 + |id|] == '&';
    forall m | 38 <= m < 38 + |id| ensures IsIdChar(s[m]) {
      assert s[m] == id[m - 38];
    }
    var k := RunEnd(s, 38);
    assert k == 38 + |id|;
  }

  /** A thumbnail link carries its id in the query and has no `/file/d/`
      path, so the id read back from it is the one it was built from. */
  lemma {:induction false} ThumbnailKeepsId(id: string)
    requires id != [] && forall m :: 0 <= m < |id| ==> IsIdChar(id[m])
    ensures DriveFileId(Thumbnail(id)) == Some(id)
  {
    var s := Thumbnail(id);
    ThumbnailHasNoFilePath(id);
    assert FirstMatch(s, FilePath, 0).None?;
    ThumbnailQuery(id);
    ThumbnailIdRun(id);
  }

  /** Converting a link twice gives what converting it once gives. */
  lemma GetDriveImageUrlIdempotent(url: string)
    ensures GetDriveImageUrl(GetDriveImageUrl(url)) == GetDriveImageUrl(url)
  {
    if url != "" && DriveFileId(url).Some? {
      ThumbnailKeepsId(DriveFileId(url).value);
    }
  }
}
