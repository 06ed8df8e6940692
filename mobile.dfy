/*
 * The mobile admin app's controller: its own MASTER/ADMIN login and
 * stored session, the scoping of houses and logs to an ADMIN's allowed
 * houses, the resident list of a house, the token editor (balance
 * snapshot, local adjustments, the list of changed balances sent on
 * save) and the back navigation of the users tab.
 */
module Mobile {
  import opened JsValues
  import opened Seqs
  import opened Strings
  import Config
  import Houses
  import Devices
  import Logs
  import Users

  /** The mobile app's storage keys. */
  const EmailKey := "mob_admin_email"
  const RoleKey := "mob_admin_role"
  const NameKey := "mob_admin_name"

  /** The signed-in administrator. */
  datatype MobileSession = MobileSession(email: string, role: string, name: string)

  /** The administrator record `validateAdmin` returns. */
  datatype Admin = Admin(email: string, role: string, status: string, name: string)

  /** The answer to `validateAdmin`; `NetworkError` is a request that threw. */
  datatype AdminResponse = NetworkError | AdminReply(success: bool, admin: Option<Admin>)

  /** A user as the mobile app lists it: the house it lives in and its
      token balances. */
  datatype Resident = Resident(uid: string, userName: string, status: string, residence: string,
                               tokens: map<string, int>)

  /** The three screens of the users tab. */
  datatype SubView = HousesPage | ListPage | EditorPage

  // ---------------------------------------------------------------------
  // Session

  /** `localStorage.getItem(key)`, with the empty string for `null`. */
  function Stored(storage: map<string, string>, key: string): string {
    if key in storage then storage[key] else ""
  }

  /** The session `init` restores: present iff both email and role are
      stored and non-empty; the name falls back to the email. */
  function StoredUser(storage: map<string, string>): (r: Option<MobileSession>)
    ensures r.Some? <==> Stored(storage, EmailKey) != "" && Stored(storage, RoleKey) != ""
    ensures r.Some? ==> r.value.email == storage[EmailKey] && r.value.role == storage[RoleKey]
    ensures r.Some? ==> r.value.name != ""
    ensures r.Some? && Stored(storage, NameKey) != "" ==> r.value.name == storage[NameKey]
    ensures r.Some? && Stored(storage, NameKey) == "" ==> r.value.name == r.value.email
  {
    var email := Stored(storage, EmailKey);
    var role := Stored(storage, RoleKey);
    if email != "" && role != "" then
      Some(MobileSession(email, role, OrElse(Stored(storage, NameKey), email)))
    else None
  }

  /** The answer `handleLogin` accepts: a successful reply with an active
      MASTER or ADMIN. */
  predicate Accepted(res: AdminResponse) {
    && res.AdminReply? && res.success && res.admin.Some?
    && res.admin.value.status == Config.Active
    && (res.admin.value.role == Config.Master || res.admin.value.role == Config.Admin)
  }

  /** The storage after an accepted login with the typed email `typed`. */
  function LoginStorage(storage: map<string, string>, a: Admin, typed: string): map<string, string> {
    storage[EmailKey := a.email][RoleKey := a.role][NameKey := OrElse(a.name, typed)]
  }

  /** A login is restored by the next `init` exactly as it was made, as
      long as the returned email and the name written are non-empty. */
  lemma LoginThenInit(storage: map<string, string>, a: Admin, typed: string)
    requires a.email != "" && (a.role == Config.Master || a.role == Config.Admin)
    requires a.name != "" || typed != ""
    ensures StoredUser(LoginStorage(storage, a, typed)) == Some(MobileSession(a.email, a.role, OrElse(a.name, typed)))
  {
    var s := LoginStorage(storage, a, typed);
    assert Stored(s, EmailKey) == a.email && Stored(s, RoleKey) == a.role;
    assert Stored(s, NameKey) == OrElse(a.name, typed);
  }

  /** After logout no session is restored. */
  lemma LogoutThenInit(storage: map<string, string>)
    ensures StoredUser(storage - {EmailKey, RoleKey, NameKey}).None?
  {
    assert EmailKey !in storage - {EmailKey, RoleKey, NameKey};
  }

  /** The email sent to `validateAdmin` has no surrounding white space and
      no upper-case ASCII letter. */
  lemma QueriedEmailNormalised(typed: string)
    ensures var q := ToLower(Trim(typed));
            && (q == [] || (!IsJsSpace(q[0]) && !IsJsSpace(q[|q| - 1])))
            && forall i :: 0 <= i < |q| ==> !('A' <= q[i] <= 'Z')
  {
    var t := Trim(typed);
    var q := ToLower(t);
    forall i | 0 <= i < |q| ensures !('A' <= q[i] <= 'Z') && (IsJsSpace(q[i]) <==> IsJsSpace(t[i])) {
      LowerCharClass(t[i]);
    }
  }

  lemma LowerCharClass(c: char)
    ensures !('A' <= LowerChar(c) <= 'Z')
    ensures IsJsSpace(LowerChar(c)) <==> IsJsSpace(c)
  {
  }

  // ---------------------------------------------------------------------
  // House and log scoping

  /** The house set an ADMIN is restricted to; none (all houses) for a
      MASTER or when the answer has no house list. */
  function Allowed(role: string, adminHouses: Option<seq<string>>): (r: Option<set<string>>)
    ensures role == Config.Master ==> r.None?
    ensures r.Some? ==> adminHouses.Some? && forall h :: h in r.value <==> h in adminHouses.value
  {
    if role != Config.Master && adminHouses.Some? then Some(set h | h in adminHouses.value) else None
  }

  function HouseId(h: Houses.House): string {
    h.houseId
  }

  function HouseIn(ids: set<string>): Houses.House -> bool {
    (h: Houses.House) => h.houseId in ids
  }

  /** The houses listed: sorted by id and, for a restricted user, only the
      allowed ones. */
  function ScopedHouses(hs: seq<Houses.House>, allowed: Option<set<string>>): seq<Houses.House> {
    var sorted := SortBy(hs, HouseId, false);
    match allowed
    case None => sorted
    case Some(ids) => Filter(sorted, HouseIn(ids))
  }

  /** The listed houses are sorted by id and are exactly the answer's
      houses that the allowed set admits; all of them without a set. */
  lemma ScopedHousesExactly(hs: seq<Houses.House>, allowed: Option<set<string>>)
    ensures SortedBy(ScopedHouses(hs, allowed), HouseId, false)
    ensures forall h :: h in ScopedHouses(hs, allowed) <==>
                          h in hs && (allowed.Some? ==> h.houseId in allowed.value)
    ensures allowed.None? ==> multiset(ScopedHouses(hs, allowed)) == multiset(hs)
  {
    var sorted := SortBy(hs, HouseId, false);
    assert forall h :: h in sorted <==> h in hs by {
      forall h ensures h in sorted <==> h in hs {
        assert h in sorted <==> multiset(sorted)[h] > 0;
        assert h in hs <==> multiset(hs)[h] > 0;
      }
    }
    if allowed.Some? {
      var r := Filter(sorted, HouseIn(allowed.value));
      FilterIsSubsequence(sorted, HouseIn(allowed.value));
      SortedSubsequence(r, sorted);
      forall h | h in r ensures h.houseId in allowed.value {
        var i :| 0 <= i < |r| && r[i] == h;
      }
    }
  }

  /** A subsequence of a sorted list is sorted. */
  lemma {:induction false} SortedSubsequence(a: seq<Houses.House>, b: seq<Houses.House>)
    requires IsSubsequence(a, b) && SortedBy(b, HouseId, false)
    ensures SortedBy(a, HouseId, false)
    decreases |b|
  {
    if a != [] && b != [] {
      if a[0] == b[0] {
        SortedSubsequence(a[1..], b[1..]);
        forall j | 0 < j < |a| ensures InOrder(HouseId(a[0]), HouseId(a[j]), false) {
          SubsequenceMember(a[1..], b[1..], j - 1);
        }
      } else {
        SortedSubsequence(a, b[1..]);
      }
    }
  }

  /** Every element of a subsequence is an element of the whole. */
  lemma {:induction false} SubsequenceMember(a: seq<Houses.House>, b: seq<Houses.House>, i: nat)
    requires IsSubsequence(a, b) && i < |a|
    ensures exists k :: 0 <= k < |b| && b[k] == a[i]
    decreases |b|
  {
    if a[0] == b[0] {
      if i > 0 {
        SubsequenceMember(a[1..], b[1..], i - 1);
        var k :| 0 <= k < |b[1..]| && b[1..][k] == a[1..][i - 1];
        assert b[k + 1] == a[i];
      }
    } else {
      SubsequenceMember(a, b[1..], i);
      var k :| 0 <= k < |b[1..]| && b[1..][k] == a[i];
      assert b[k + 1] == a[i];
    }
  }

  function LogIn(ids: set<string>): Logs.LogEntry -> bool {
    (l: Logs.LogEntry) => l.houseId.Some? && l.houseId.value in ids
  }

  /** The logs kept: all of them without an allowed set, otherwise those
      of allowed houses. */
  function ScopedLogs(logs: seq<Logs.LogEntry>, allowed: Option<set<string>>): seq<Logs.LogEntry> {
    match allowed
    case None => logs
    case Some(ids) => Filter(logs, LogIn(ids))
  }

  /** A restricted user sees, in the answer's order, exactly the logs of
      allowed houses; a log without a house is never among them. */
  lemma ScopedLogsExactly(logs: seq<Logs.LogEntry>, ids: set<string>)
    ensures IsSubsequence(ScopedLogs(logs, Some(ids)), logs)
    ensures forall l :: l in ScopedLogs(logs, Some(ids)) <==>
                          l in logs && l.houseId.Some? && l.houseId.value in ids
  {
    FilterIsSubsequence(logs, LogIn(ids));
    var r := Filter(logs, LogIn(ids));
    forall l | l in r ensures l in logs && l.houseId.Some? && l.houseId.value in ids {
      var i :| 0 <= i < |r| && r[i] == l;
    }
    forall l | l in logs && l.houseId.Some? && l.houseId.value in ids ensures l in r {
      var i :| 0 <= i < |logs| && logs[i] == l;
    }
  }

  predicate IsActiveType(t: Devices.TokenType) {
    t.status == Config.Active
  }

  // ---------------------------------------------------------------------
  // Residents and the token editor

  function LivesIn(house: Option<string>): Resident -> bool {
    (u: Resident) => house == Some(u.residence)
  }

  function ResidentName(u: Resident): string {
    u.userName
  }

  /** The residents of the selected house, sorted by name; none when no
      house is selected. */
  function Residents(users: seq<Resident>, house: Option<string>): seq<Resident> {
    SortBy(Filter(users, LivesIn(house)), ResidentName, false)
  }

  /** The list shows every resident of the house, each as often as in the
      user list, sorted by name, and nobody else. */
  lemma ResidentsExactly(users: seq<Resident>, house: string)
    ensures SortedBy(Residents(users, Some(house)), ResidentName, false)
    ensures multiset(Residents(users, Some(house))) == multiset(Filter(users, LivesIn(Some(house))))
    ensures forall u :: u in Residents(users, Some(house)) <==> u in users && u.residence == house
  {
    var f := Filter(users, LivesIn(Some(house)));
    var r := Residents(users, Some(house));
    forall u ensures u in r <==> u in users && u.residence == house {
      assert u in r <==> multiset(r)[u] > 0;
      assert u in f <==> multiset(f)[u] > 0;
      if u in f {
        var i :| 0 <= i < |f| && f[i] == u;
      }
      if u in users && u.residence == house {
        var i :| 0 <= i < |users| && users[i] == u;
      }
    }
  }

  function Codes(types: seq<Devices.TokenType>): seq<string> {
    Map(types, (t: Devices.TokenType) => t.code)
  }

  /** The balances the editor opens with: one entry per token type, the
      user's balance or 0. */
  function Snapshot(types: seq<Devices.TokenType>, tokens: map<string, int>): map<string, int>
    decreases |types|
  {
    if types == [] then map[]
    else
      var last := types[|types| - 1].code;
      Snapshot(types[..|types| - 1], tokens)[last := Users.Balance(tokens, last)]
  }

  /** The snapshot has exactly the listed token types as keys, each with
      the user's stored balance, 0 when there is none. */
  lemma {:induction false} SnapshotExactly(types: seq<Devices.TokenType>, tokens: map<string, int>)
    ensures forall t :: t in Snapshot(types, tokens) <==> exists i :: 0 <= i < |types| && types[i].code == t
    ensures forall t :: t in Snapshot(types, tokens) ==> Snapshot(types, tokens)[t] == Users.Balance(tokens, t)
    decreases |types|
  {
    if types != [] {
      var init := types[..|types| - 1];
      SnapshotExactly(init, tokens);
      forall t ensures t in Snapshot(types, tokens) <==> exists i :: 0 <= i < |types| && types[i].code == t {
        if exists i :: 0 <= i < |init| && init[i].code == t {
          var i :| 0 <= i < |init| && init[i].code == t;
          assert types[i].code == t;
        }
        if exists i :: 0 <= i < |types| && types[i].code == t {
          var i :| 0 <= i < |types| && types[i].code == t;
          if i < |init| {
            assert init[i].code == t;
          }
        }
      }
    }
  }

  /** No balance in the map is negative. */
  predicate NonNegative(m: map<string, int>) {
    forall t :: t in m ==> m[t] >= 0
  }

  /** The changes `saveTokens` sends: for each token type in order, the
      difference between the edited and the opening balance, when it is
      not zero. */
  function Deltas(types: seq<Devices.TokenType>, orig: map<string, int>, curr: map<string, int>): seq<(string, int)>
    decreases |types|
  {
    if types == [] then []
    else
      var last := types[|types| - 1].code;
      var d := Users.Balance(curr, last) - Users.Balance(orig, last);
      Deltas(types[..|types| - 1], orig, curr) + (if d != 0 then [(last, d)] else [])
  }

  /** Every change sent is a listed token type's non-zero difference. */
  lemma {:induction false} DeltasSound(types: seq<Devices.TokenType>, orig: map<string, int>, curr: map<string, int>)
    ensures forall c :: c in Deltas(types, orig, curr) ==>
              && c.1 != 0 && c.1 == Users.Balance(curr, c.0) - Users.Balance(orig, c.0)
              && exists i :: 0 <= i < |types| && types[i].code == c.0
    decreases |types|
  {
    if types != [] {
      var init := types[..|types| - 1];
      DeltasSound(init, orig, curr);
      forall c | c in Deltas(init, orig, curr) ensures exists i :: 0 <= i < |types| && types[i].code == c.0 {
        var i :| 0 <= i < |init| && init[i].code == c.0;
        assert types[i].code == c.0;
      }
    }
  }

  /** Every listed token type whose balance was edited is sent. */
  lemma {:induction false} DeltasComplete(types: seq<Devices.TokenType>, orig: map<string, int>, curr: map<string, int>, i: nat)
    requires i < |types|
    requires Users.Balance(curr, types[i].code) != Users.Balance(orig, types[i].code)
    ensures exists c :: c in Deltas(types, orig, curr) && c.0 == types[i].code
    decreases |types|
  {
    var init := types[..|types| - 1];
    var last := types[|types| - 1].code;
    if i < |init| {
      assert init[i] == types[i];
      DeltasComplete(init, orig, curr, i);
      var c :| c in Deltas(init, orig, curr) && c.0 == types[i].code;
      assert c in Deltas(types, orig, curr);
    } else {
      var d := Users.Balance(curr, last) - Users.Balance(orig, last);
      assert (last, d) in Deltas(types, orig, curr);
    }
  }

  /** The changes follow the order of the token types. */
  lemma {:induction false} DeltasInOrder(types: seq<Devices.TokenType>, orig: map<string, int>, curr: map<string, int>)
    ensures IsSubsequence(Map(Deltas(types, orig, curr), (c: (string, int)) => c.0), Codes(types))
    decreases |types|
  {
    var first := (c: (string, int)) => c.0;
    if types == [] {
    } else {
      var init := types[..|types| - 1];
      var last := types[|types| - 1].code;
      DeltasInOrder(init, orig, curr);
      var before := Map(Deltas(init, orig, curr), first);
      assert Codes(types) == Codes(init) + [last];
      var d := Users.Balance(curr, last) - Users.Balance(orig, last);
      if d != 0 {
        assert Map(Deltas(types, orig, curr), first) == before + [last];
        SubsequenceAppend(before, Codes(init), last);
      } else {
        assert Deltas(types, orig, curr) == Deltas(init, orig, curr);
        SubsequenceExtend(before, Codes(init), [last]);
      }
    }
  }

  /** An editor closed without edits sends nothing. */
  lemma {:induction false} UneditedSavesNothing(types: seq<Devices.TokenType>, m: map<string, int>)
    ensures Deltas(types, m, m) == []
    decreases |types|
  {
    if types != [] {
      UneditedSavesNothing(types[..|types| - 1], m);
    }
  }

  /** The reply to the `k`-th balance update: missing replies are failures. */
  function Confirmed(replies: seq<bool>, k: nat): bool {
    k < |replies| && replies[k]
  }

  /** The screen `goBack` leads to: editor to list, list to houses, and
      nowhere from the houses. */
  function Back(v: SubView): (r: SubView)
    ensures r != EditorPage
    ensures r == ListPage <==> v == EditorPage
  {
    match v
    case EditorPage => ListPage
    case ListPage => HousesPage
    case HousesPage => HousesPage
  }

  /** Two steps back always reach the houses. */
  lemma BackTwiceReachesHouses(v: SubView)
    ensures Back(Back(v)) == HousesPage
  {
  }

  // ---------------------------------------------------------------------
  // Log badges and names

  /** `getEventBadge`: granted and master-key accesses are green, an
      offline master-key access amber, the refusals red, anything else
      neutral. */
  function EventBadge(eventType: string): (r: string)
    ensures r in {"log-badge-success", "log-badge-warning", "log-badge-danger", "log-badge-info"}
    ensures r == "log-badge-success" <==> eventType == "ACCESS_GRANTED" || eventType == "MASTERKEY_ACCESS"
    ensures r == "log-badge-warning" <==> eventType == "MASTERKEY_ACCESS_OFFLINE"
  {
    match eventType
    case "ACCESS_GRANTED" => "log-badge-success"
    case "MASTERKEY_ACCESS" => "log-badge-success"
    case "MASTERKEY_ACCESS_OFFLINE" => "log-badge-warning"
    case "INACTIVE_USER" => "log-badge-danger"
    case "INVALID_TOKEN_TYPE" => "log-badge-danger"
    case "NO_TOKENS" => "log-badge-danger"
    case "NOT_IN_HOUSE_USER" => "log-badge-danger"
    case "OUTSIDE_TIME_WINDOW" => "log-badge-danger"
    case "UNREGISTERED_USER" => "log-badge-danger"
    case _ => "log-badge-info"
  }

  /** `getEventName`: the display name of a known event, the type itself
      otherwise. */
  function EventName(eventType: string): string {
    match eventType
    case "ACCESS_GRANTED" => "Acceso"
    case "INACTIVE_USER" => "Inactivo"
    case "INVALID_TOKEN_TYPE" => "Token Inválido"
    case "MASTERKEY_ACCESS" => "MasterKey"
    case "MASTERKEY_ACCESS_OFFLINE" => "MK Offline"
    case "NO_TOKENS" => "Sin Tokens"
    case "NOT_IN_HOUSE_USER" => "No Autorizado"
    case "OUTSIDE_TIME_WINDOW" => "Fuera Horario"
    case "UNREGISTERED_USER" => "No Registrado"
    case _ => eventType
  }

  /** The events with a name of their own are exactly those with a badge
      other than the neutral one. */
  lemma NamedIffBadged(eventType: string)
    ensures EventName(eventType) != eventType <==> EventBadge(eventType) != "log-badge-info"
  {
  }

  // ---------------------------------------------------------------------
  // The controller

  class MobileApp {
    var user: Option<MobileSession>
    var storage: map<string, string>
    var houses: seq<Houses.House>
    var users: seq<Resident>
    var tokenTypes: seq<Devices.TokenType>
    var logs: seq<Logs.LogEntry>
    var devices: seq<Devices.RawDevice>
    var selectedHouse: Option<string>
    var selectedUser: Option<Resident>
    var currentTab: string
    var usersSubView: SubView
    /** The houses an ADMIN may see; `None` for all of them. */
    var allowedHouseIds: Option<set<string>>
    /** The balances the editor opened with and the edited ones. */
    var editorOriginal: map<string, int>
    var editorCurrent: map<string, int>

    constructor(storage: map<string, string>)
      ensures this.storage == storage && user.None? && allowedHouseIds.None?
      ensures houses == [] && users == [] && tokenTypes == [] && logs == [] && devices == []
      ensures selectedHouse.None? && selectedUser.None?
      ensures currentTab == "users" && usersSubView == HousesPage
      ensures editorOriginal == map[] && editorCurrent == map[]
    {
      this.storage := storage;
      user := None;
      houses := [];
      users := [];
      tokenTypes := [];
      logs := [];
      devices := [];
      selectedHouse := None;
      selectedUser := None;
      currentTab := "users";
      usersSubView := HousesPage;
      allowedHouseIds := None;
      editorOriginal := map[];
      editorCurrent := map[];
    }

    /** `init`: restores the stored session and opens the app, or leaves
        the login screen. */
    method Init()
      modifies this`user, this`currentTab, this`usersSubView
      ensures StoredUser(storage).Some? ==>
                user == StoredUser(storage) && currentTab == "users" && usersSubView == HousesPage
      ensures StoredUser(storage).None? ==>
                user == old(user) && currentTab == old(currentTab) && usersSubView == old(usersSubView)
    {
      var email := Stored(storage, EmailKey);
      var role := Stored(storage, RoleKey);
      var name := Stored(storage, NameKey);
      if email != "" && role != "" {
        user := Some(MobileSession(email, role, OrElse(name, email)));
        ShowApp();
      }
    }

    /** `showApp`: the users tab on its houses screen. */
    method ShowApp()
      modifies this`currentTab, this`usersSubView
      ensures currentTab == "users" && usersSubView == HousesPage
    {
      currentTab := "users";
      usersSubView := HousesPage;
    }

    /** `handleLogin`: queries the trimmed, lower-cased email; only an
        accepted answer writes the storage and the session, anything else
        leaves both as they were. */
    method HandleLogin(typed: string, res: AdminResponse) returns (queried: string, accepted: bool)
      modifies this`storage, this`user, this`currentTab, this`usersSubView
      ensures queried == ToLower(Trim(typed))
      ensures accepted <==> Accepted(res)
      ensures accepted ==>
                && storage == LoginStorage(old(storage), res.admin.value, queried)
                && user == Some(MobileSession(res.admin.value.email, res.admin.value.role,
                                              OrElse(res.admin.value.name, queried)))
                && currentTab == "users" && usersSubView == HousesPage
      ensures !accepted ==>
                && storage == old(storage) && user == old(user)
                && currentTab == old(currentTab) && usersSubView == old(usersSubView)
    {
      queried := ToLower(Trim(typed));
      if res.NetworkError? || !res.success || res.admin.None? {
        return queried, false;
      }
      var admin := res.admin.value;
      if admin.status != Config.Active {
        return queried, false;
      }
      var role := admin.role;
      if role != Config.Master && role != Config.Admin {
        return queried, false;
      }
      storage := storage[EmailKey := admin.email];
      storage := storage[RoleKey := role];
      storage := storage[NameKey := OrElse(admin.name, queried)];
      user := Some(MobileSession(admin.email, role, OrElse(admin.name, queried)));
      ShowApp();
      accepted := true;
    }

    /** `logout`: forgets the three stored keys and the session. */
    method Logout()
      modifies this`storage, this`user
      ensures storage == old(storage) - {EmailKey, RoleKey, NameKey}
      ensures user.None?
    {
      storage := storage - {EmailKey};
      storage := storage - {RoleKey};
      storage := storage - {NameKey};
      user := None;
    }

    /** `switchTab`: the users tab reopens on the houses; returns whether
        the logs are loaded, which happens the first time the logs tab is
        opened with no logs. */
    method SwitchTab(tab: string) returns (loadLogs: bool)
      modifies this`currentTab, this`usersSubView
      ensures currentTab == tab
      ensures tab == "users" ==> usersSubView == HousesPage
      ensures tab != "users" ==> usersSubView == old(usersSubView)
      ensures loadLogs <==> tab == "logs" && logs == []
    {
      currentTab := tab;
      if tab == "users" {
        usersSubView := HousesPage;
      }
      loadLogs := tab == "logs" && |logs| == 0;
    }

    /** `loadData` once every answer is in: the allowed houses of an
        ADMIN (queried with its email), the houses sorted by id and
        scoped, the users, and the active token types. When one of the
        requests fails (`failed`), nothing is stored. */
    method LoadData(housesRes: Option<seq<Houses.House>>, usersRes: Option<seq<Resident>>,
                    typesRes: Option<seq<Devices.TokenType>>, adminHouses: Option<seq<string>>, failed: bool)
      returns (adminQuery: Option<string>)
      requires user.Some?
      modifies this`allowedHouseIds, this`houses, this`users, this`tokenTypes
      ensures adminQuery == (if user.value.role != Config.Master then Some(user.value.email) else None)
      ensures failed ==> allowedHouseIds == old(allowedHouseIds) && houses == old(houses)
                         && users == old(users) && tokenTypes == old(tokenTypes)
      ensures !failed ==> allowedHouseIds == Allowed(user.value.role, adminHouses)
      ensures !failed ==> houses == ScopedHouses(housesRes.GetOr([]), allowedHouseIds)
      ensures !failed ==> users == usersRes.GetOr([])
      ensures !failed ==> tokenTypes == Filter(typesRes.GetOr([]), IsActiveType)
    {
      adminQuery := None;
      if user.value.role != Config.Master {
        adminQuery := Some(user.value.email);
      }
      if failed {
        return;
      }
      if user.value.role != Config.Master && adminHouses.Some? {
        allowedHouseIds := Some(set h | h in adminHouses.value);
      } else {
        allowedHouseIds := None;
      }
      assert allowedHouseIds == Allowed(user.value.role, adminHouses);
      var hs := SortBy(housesRes.GetOr([]), HouseId, false);
      if allowedHouseIds.Some? {
        hs := Filter(hs, HouseIn(allowedHouseIds.value));
      }
      assert hs == ScopedHouses(housesRes.GetOr([]), allowedHouseIds);
      houses := hs;
      users := usersRes.GetOr([]);
      tokenTypes := Filter(typesRes.GetOr([]), IsActiveType);
    }

    /** `loadLogs`: the devices are queried only while none are cached;
        the logs are scoped to the allowed houses. When one of the
        requests fails (`failed`), logs and devices are kept. Returns
        whether the devices were queried. */
    method LoadLogs(logsRes: Option<seq<Logs.LogEntry>>, devicesRes: Option<seq<Devices.RawDevice>>, failed: bool)
      returns (devicesQueried: bool)
      modifies this`logs, this`devices
      ensures devicesQueried <==> old(devices) == []
      ensures failed ==> logs == old(logs) && devices == old(devices)
      ensures !failed ==> devices == if devicesQueried then devicesRes.GetOr([]) else old(devices)
      ensures !failed ==> logs == ScopedLogs(logsRes.GetOr([]), allowedHouseIds)
    {
      devicesQueried := |devices| == 0;
      if failed {
        return;
      }
      if devicesQueried {
        devices := devicesRes.GetOr([]);
      }
      var ls := logsRes.GetOr([]);
      if allowedHouseIds.Some? {
        ls := Filter(ls, LogIn(allowedHouseIds.value));
      }
      logs := ls;
    }

    /** `renderHouses`: the houses screen. */
    method RenderHouses()
      modifies this`usersSubView
      ensures usersSubView == HousesPage
    {
      usersSubView := HousesPage;
    }

    /** `selectHouse`: opens the resident list of a house. */
    method SelectHouse(houseId: string) returns (shown: seq<Resident>)
      modifies this`selectedHouse, this`usersSubView
      ensures selectedHouse == Some(houseId) && usersSubView == ListPage
      ensures shown == Residents(users, Some(houseId))
    {
      selectedHouse := Some(houseId);
      shown := RenderUserList();
    }

    /** `renderUserList`: the list screen with the selected house's
        residents. */
    method RenderUserList() returns (shown: seq<Resident>)
      modifies this`usersSubView
      ensures usersSubView == ListPage
      ensures shown == Residents(users, selectedHouse)
    {
      usersSubView := ListPage;
      shown := SortBy(Filter(users, LivesIn(selectedHouse)), ResidentName, false);
    }

    /** `selectUser`: opens the editor on the first user with the uid;
        nothing happens for an unknown uid. */
    method SelectUser(uid: string)
      modifies this`selectedUser, this`usersSubView, this`editorOriginal, this`editorCurrent
      ensures selectedUser == FindFirst(users, (u: Resident) => u.uid == uid)
      ensures selectedUser.Some? ==>
                usersSubView == EditorPage && editorOriginal == editorCurrent
                && editorOriginal == Snapshot(tokenTypes, selectedUser.value.tokens)
      ensures selectedUser.None? ==>
                usersSubView == old(usersSubView) && editorOriginal == old(editorOriginal)
                && editorCurrent == old(editorCurrent)
    {
      selectedUser := FindFirst(users, (u: Resident) => u.uid == uid);
      if selectedUser.Some? {
        RenderTokenEditor();
      }
    }

    /** `renderTokenEditor`: the editor opens with both balance maps set
        to the user's balance of every active token type, 0 when missing. */
    method RenderTokenEditor()
      requires selectedUser.Some?
      modifies this`usersSubView, this`editorOriginal, this`editorCurrent
      ensures usersSubView == EditorPage
      ensures editorOriginal == editorCurrent
      ensures editorOriginal == Snapshot(tokenTypes, selectedUser.value.tokens)
    {
      var tokens := selectedUser.value.tokens;
      editorOriginal := map[];
      editorCurrent := map[];
      for i := 0 to |tokenTypes|
        invariant editorOriginal == editorCurrent == Snapshot(tokenTypes[..i], tokens)
      {
        var code := tokenTypes[i].code;
        var bal := Users.Balance(tokens, code);
        editorOriginal := editorOriginal[code := bal];
        editorCurrent := editorCurrent[code := bal];
        assert tokenTypes[..i + 1][..i] == tokenTypes[..i];
      }
      assert tokenTypes[..|tokenTypes|] == tokenTypes;
      usersSubView := EditorPage;
    }

    /** `adjustToken`: steps a balance shown on screen by `delta`, unless
        the result would be negative; a step that is refused, or a type
        not on screen, changes nothing. No balance ever turns negative. */
    method AdjustToken(tokenType: string, delta: int, onScreen: bool) returns (applied: bool)
      modifies this`editorCurrent
      ensures applied <==> onScreen && Users.Balance(old(editorCurrent), tokenType) + delta >= 0
      ensures applied ==>
                editorCurrent == old(editorCurrent)[tokenType := Users.Balance(old(editorCurrent), tokenType) + delta]
      ensures !applied ==> editorCurrent == old(editorCurrent)
      ensures NonNegative(old(editorCurrent)) ==> NonNegative(editorCurrent)
    {
      if !onScreen {
        return false;
      }
      var current := Users.Balance(editorCurrent, tokenType);
      var next := current + delta;
      if next < 0 {
        return false;
      }
      editorCurrent := editorCurrent[tokenType := next];
      applied := true;
    }

    /** `cancelEditor`: back to the list, the edits dropped with the screen. */
    method CancelEditor() returns (shown: seq<Resident>)
      modifies this`usersSubView
      ensures usersSubView == ListPage
      ensures shown == Residents(users, selectedHouse)
    {
      shown := RenderUserList();
    }

    /** `saveTokens`: computes the changes in token-type order; with none
        it sends nothing. Otherwise it sends them one by one, stopping
        after the first refused one, and returns to the list once all are
        confirmed. `replies[k]` is the answer to the `k`-th request. */
    method SaveTokens(replies: seq<bool>) returns (changes: seq<(string, int)>, calls: nat)
      modifies this`usersSubView
      ensures selectedUser.None? ==> changes == []
      ensures selectedUser.Some? ==> changes == Deltas(tokenTypes, editorOriginal, editorCurrent)
      ensures calls <= |changes|
      ensures changes != [] ==> calls >= 1
      ensures forall k :: 0 <= k < calls - 1 ==> Confirmed(replies, k)
      ensures calls < |changes| ==> !Confirmed(replies, calls - 1)
      ensures usersSubView == ListPage <==>
                (changes != [] && (forall k :: 0 <= k < |changes| ==> Confirmed(replies, k)))
                || (old(usersSubView) == ListPage && !(changes != [] && forall k :: 0 <= k < |changes| ==> Confirmed(replies, k)))
      ensures usersSubView != ListPage ==> usersSubView == old(usersSubView)
    {
      if selectedUser.None? {
        return [], 0;
      }
      changes := [];
      for i := 0 to |tokenTypes|
        invariant changes == Deltas(tokenTypes[..i], editorOriginal, editorCurrent)
      {
        var code := tokenTypes[i].code;
        var orig := Users.Balance(editorOriginal, code);
        var curr := Users.Balance(editorCurrent, code);
        var delta := curr - orig;
        if delta != 0 {
          changes := changes + [(code, delta)];
        }
        assert tokenTypes[..i + 1][..i] == tokenTypes[..i];
      }
      assert tokenTypes[..|tokenTypes|] == tokenTypes;
      if |changes| == 0 {
        return changes, 0;
      }
      calls := 0;
      var ok := true;
      while calls < |changes| && ok
        invariant calls <= |changes|
        invariant ok <==> forall k :: 0 <= k < calls ==> Confirmed(replies, k)
        invariant calls >= 1 ==> forall k :: 0 <= k < calls - 1 ==> Confirmed(replies, k)
        invariant !ok ==> calls >= 1
      {
        ok := Confirmed(replies, calls);
        calls := calls + 1;
      }
      if ok {
        var _ := RenderUserList();
      }
    }

    /** `goBack`: one screen up in the users tab. */
    method GoBack()
      modifies this`usersSubView
      ensures usersSubView == Back(old(usersSubView))
    {
      if usersSubView == EditorPage {
        var _ := RenderUserList();
      } else if usersSubView == ListPage {
        RenderHouses();
      }
    }
  }
}
