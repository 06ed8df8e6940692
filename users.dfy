/*
 * The users view: the search, status filter and name sort of the user
 * table; the houses a user is assigned to; the token types relevant to a
 * user; the adjust-tokens dialog and the list of balance changes it
 * submits; and the status toggle.
 */
module Users {
  import opened JsValues
  import opened Seqs
  import opened Strings
  import Config
  import Devices

  /** A user row. `userType` is absent for users created before user
      types existed; `tokens` maps token types to balances. */
  datatype User = User(uid: string, userName: string, status: string, userType: string, tokens: map<string, int>)

  /** A user-house assignment. */
  datatype Assignment = Assignment(uid: string, houseId: string)

  // ---------------------------------------------------------------------
  // The user table

  /** The search matches the lower-cased name or uid. */
  predicate MatchesSearch(term: string, u: User) {
    Includes(ToLower(u.userName), term) || Includes(ToLower(u.uid), term)
  }

  /** A user is listed when it matches the search (if any) and has the
      filtered status (if any). */
  predicate Listed(term: string, status: string, u: User) {
    (term == "" || MatchesSearch(term, u)) && (status == "" || u.status == status)
  }

  function BySearch(term: string): User -> bool {
    (u: User) => term == "" || MatchesSearch(term, u)
  }

  function ByListed(term: string, status: string): User -> bool {
    (u: User) => Listed(term, status, u)
  }

  function UserName(u: User): string {
    u.userName
  }

  /** `getFilteredUsers`: search, then status, then the optional sort by
      name, on a copy of the list. */
  function GetFilteredUsers(users: seq<User>, term: string, status: string, sortName: string): seq<User> {
    var f1 := if term != "" then Filter(users, (u: User) => MatchesSearch(term, u)) else users;
    var f2 := if status != "" then Filter(f1, (u: User) => u.status == status) else f1;
    if sortName == "asc" then SortBy(f2, UserName, false)
    else if sortName == "desc" then SortBy(f2, UserName, true)
    else f2
  }

  /** Before sorting, the two filters are one filter by `Listed`. */
  lemma {:induction false} FiltersAreOne(users: seq<User>, term: string, status: string)
    ensures GetFilteredUsers(users, term, status, "") == Filter(users, ByListed(term, status))
  {
    NarrowBy(users, term != "", (u: User) => true, (u: User) => MatchesSearch(term, u), BySearch(term));
    FilterAll(users, (u: User) => true);
    var f1 := if term != "" then Filter(users, (u: User) => MatchesSearch(term, u)) else users;
    NarrowBy(users, status != "", BySearch(term), (u: User) => u.status == status, ByListed(term, status));
  }

  /** Without a sort the listed users keep the stored order. */
  lemma UnsortedKeepsOrder(users: seq<User>, term: string, status: string, sortName: string)
    requires sortName != "asc" && sortName != "desc"
    ensures GetFilteredUsers(users, term, status, sortName) == Filter(users, ByListed(term, status))
    ensures IsSubsequence(GetFilteredUsers(users, term, status, sortName), users)
  {
    FiltersAreOne(users, term, status);
    FilterIsSubsequence(users, ByListed(term, status));
  }

  /** Whatever the sort, the listed users are exactly the stored users
      that pass the search and the status filter, each as often as stored. */
  lemma ListedExactly(users: seq<User>, term: string, status: string, sortName: string)
    ensures multiset(GetFilteredUsers(users, term, status, sortName)) == multiset(Filter(users, ByListed(term, status)))
    ensures forall u :: u in GetFilteredUsers(users, term, status, sortName) <==> u in users && Listed(term, status, u)
  {
    FiltersAreOne(users, term, status);
    var f := Filter(users, ByListed(term, status));
    var r := GetFilteredUsers(users, term, status, sortName);
    assert forall u :: u in r <==> u in multiset(f);
    forall u | u in users && Listed(term, status, u) ensures u in f {
      var i :| 0 <= i < |users| && users[i] == u;
    }
  }

  /** `'asc'` lists names in ascending order, `'desc'` in descending order. */
  lemma SortOrders(users: seq<User>, term: string, status: string)
    ensures SortedBy(GetFilteredUsers(users, term, status, "asc"), UserName, false)
    ensures SortedBy(GetFilteredUsers(users, term, status, "desc"), UserName, true)
  {
  }

  /** The houses assigned to a user, in assignment order. */
  function GetHousesForUser(assignments: seq<Assignment>, uid: string): (r: seq<string>)
    ensures forall h :: h in r <==> Assignment(uid, h) in assignments
  {
    var mine := Filter(assignments, (a: Assignment) => a.uid == uid);
    var r := Map(mine, (a: Assignment) => a.houseId);
    assert forall h :: Assignment(uid, h) in assignments ==> Assignment(uid, h) in mine by {
      forall h | Assignment(uid, h) in assignments ensures Assignment(uid, h) in mine {
        var i :| 0 <= i < |assignments| && assignments[i] == Assignment(uid, h);
      }
    }
    assert forall h :: Assignment(uid, h) in mine ==> h in r by {
      forall h | Assignment(uid, h) in mine ensures h in r {
        var i :| 0 <= i < |mine| && mine[i] == Assignment(uid, h);
        assert r[i] == h;
      }
    }
    r
  }

  // ---------------------------------------------------------------------
  // Token types relevant to a user

  /** The `active` cells this view counts as active: besides the three
      the devices view accepts, the number 1. */
  predicate IsActiveCell(v: Js) {
    v == Bool(true) || v == Str("TRUE") || v == Str("true") || v == Num(1)
  }

  /** The two views' notions of an active device differ only on `1`. */
  lemma ActiveNotionsDiffer(v: Js)
    ensures IsActiveCell(v) <==> Devices.NormalizeActive(v) || v == Num(1)
  {
  }

  /** Whether a device counts for a user: it is active and, for a user
      that is not GLOBAL, sits in one of the user's houses. */
  predicate Relevant(assignments: seq<Assignment>, uid: string, userType: string, d: Devices.RawDevice) {
    IsActiveCell(d.active)
    && (userType == "GLOBAL" || (d.houseId != "" && d.houseId in GetHousesForUser(assignments, uid)))
  }

  function TokenTypeOf(d: Devices.RawDevice): string {
    d.tokenType
  }

  function IsActiveDevice(d: Devices.RawDevice): bool {
    IsActiveCell(d.active)
  }

  function InHouses(houses: seq<string>): Devices.RawDevice -> bool {
    (d: Devices.RawDevice) => d.houseId != "" && d.houseId in houses
  }

  function ByRelevant(assignments: seq<Assignment>, uid: string, userType: string): Devices.RawDevice -> bool {
    (d: Devices.RawDevice) => Relevant(assignments, uid, userType, d)
  }

  /** The devices that count: the active ones, narrowed to the user's
      houses unless the user is GLOBAL. */
  function RelevantDevices(devices: seq<Devices.RawDevice>, assignments: seq<Assignment>, uid: string, userType: string): seq<Devices.RawDevice> {
    var active := Filter(devices, IsActiveDevice);
    if userType == "GLOBAL" then active
    else Filter(active, InHouses(GetHousesForUser(assignments, uid)))
  }

  /** `getRelevantTokenTypes`: the distinct non-empty token types of the
      devices that count for the user, in first-occurrence order. */
  function GetRelevantTokenTypes(devices: seq<Devices.RawDevice>, assignments: seq<Assignment>, uid: string, userType: string): (r: seq<string>)
    ensures NoDuplicates(r)
    ensures "" !in r
  {
    var types := Filter(Map(RelevantDevices(devices, assignments, uid, userType), TokenTypeOf), (t: string) => t != "");
    Dedup(types)
  }

  /** The two-step narrowing is one filter by `Relevant`. */
  lemma RelevantDevicesExactly(devices: seq<Devices.RawDevice>, assignments: seq<Assignment>, uid: string, userType: string)
    ensures RelevantDevices(devices, assignments, uid, userType) == Filter(devices, ByRelevant(assignments, uid, userType))
  {
    NarrowBy(devices, userType != "GLOBAL", IsActiveDevice, InHouses(GetHousesForUser(assignments, uid)), ByRelevant(assignments, uid, userType));
  }

  /** A token type occurs in the token types of some devices exactly when
      one of them carries it. */
  lemma TypeOfSome(ds: seq<Devices.RawDevice>, t: string)
    ensures t in Map(ds, TokenTypeOf) <==> exists k :: 0 <= k < |ds| && ds[k].tokenType == t
  {
    var m := Map(ds, TokenTypeOf);
    if exists k :: 0 <= k < |ds| && ds[k].tokenType == t {
      var k :| 0 <= k < |ds| && ds[k].tokenType == t;
      assert m[k] == t;
    }
  }

  /** A token type is offered exactly when some device that counts for
      the user carries it. */
  lemma RelevantTypesExactly(devices: seq<Devices.RawDevice>, assignments: seq<Assignment>, uid: string, userType: string, t: string)
    ensures t in GetRelevantTokenTypes(devices, assignments, uid, userType) <==>
              t != "" && exists i :: 0 <= i < |devices| && devices[i].tokenType == t && Relevant(assignments, uid, userType, devices[i])
  {
    var relevant := RelevantDevices(devices, assignments, uid, userType);
    NonEmptyTypesOf(relevant, t);
    RelevantDevicesExactly(devices, assignments, uid, userType);
    TypeOfSome(relevant, t);
    RelevantCarrier(devices, relevant, assignments, uid, userType, t);
  }

  /** The offered types are the non-empty token types of the devices. */
  lemma NonEmptyTypesOf(ds: seq<Devices.RawDevice>, t: string)
    ensures t in Dedup(Filter(Map(ds, TokenTypeOf), (t: string) => t != "")) <==> t != "" && t in Map(ds, TokenTypeOf)
  {
    var m := Map(ds, TokenTypeOf);
    var types := Filter(m, (t: string) => t != "");
    if t in Dedup(types) {
      var k :| 0 <= k < |Dedup(types)| && Dedup(types)[k] == t;
    }
    if t != "" && t in m {
      var k :| 0 <= k < |m| && m[k] == t;
      assert t in types;
      var j :| 0 <= j < |types| && types[j] == t;
    }
  }

  /** A relevant device carries `t` iff a device of the list that passes
      `Relevant` does. */
  lemma RelevantCarrier(devices: seq<Devices.RawDevice>, relevant: seq<Devices.RawDevice>, assignments: seq<Assignment>,
                        uid: string, userType: string, t: string)
    requires relevant == Filter(devices, ByRelevant(assignments, uid, userType))
    ensures (exists k :: 0 <= k < |relevant| && relevant[k].tokenType == t) <==>
              exists i :: 0 <= i < |devices| && devices[i].tokenType == t && Relevant(assignments, uid, userType, devices[i])
  {
    if exists k :: 0 <= k < |relevant| && relevant[k].tokenType == t {
      var k :| 0 <= k < |relevant| && relevant[k].tokenType == t;
      KeptIsRelevant(devices, relevant, assignments, uid, userType, k);
    }
    if exists i :: 0 <= i < |devices| && devices[i].tokenType == t && Relevant(assignments, uid, userType, devices[i]) {
      var i :| 0 <= i < |devices| && devices[i].tokenType == t && Relevant(assignments, uid, userType, devices[i]);
      RelevantIsKept(devices, relevant, assignments, uid, userType, i);
    }
  }

  lemma KeptIsRelevant(devices: seq<Devices.RawDevice>, relevant: seq<Devices.RawDevice>, assignments: seq<Assignment>,
                       uid: string, userType: string, k: int)
    requires relevant == Filter(devices, ByRelevant(assignments, uid, userType))
    requires 0 <= k < |relevant|
    ensures exists i :: 0 <= i < |devices| && devices[i] == relevant[k] && Relevant(assignments, uid, userType, devices[i])
  {
    assert ByRelevant(assignments, uid, userType)(relevant[k]);
    var i :| 0 <= i < |devices| && devices[i] == relevant[k];
  }

  lemma RelevantIsKept(devices: seq<Devices.RawDevice>, relevant: seq<Devices.RawDevice>, assignments: seq<Assignment>,
                       uid: string, userType: string, i: int)
    requires relevant == Filter(devices, ByRelevant(assignments, uid, userType))
    requires 0 <= i < |devices| && Relevant(assignments, uid, userType, devices[i])
    ensures exists k :: 0 <= k < |relevant| && relevant[k] == devices[i]
  {
    assert ByRelevant(assignments, uid, userType)(devices[i]);
  }

  // ---------------------------------------------------------------------
  // Adjusting balances

  /** The token types the adjust-tokens dialog offers for `uid`: none for
      an unknown user; a user without a type is treated as GLOBAL. */
  function DialogTypes(users: seq<User>, devices: seq<Devices.RawDevice>, assignments: seq<Assignment>, uid: string): (r: Option<seq<string>>)
    ensures r.None? <==> forall i :: 0 <= i < |users| ==> users[i].uid != uid
    ensures r.Some? ==>
              exists i :: (0 <= i < |users| && users[i].uid == uid && (forall j :: 0 <= j < i ==> users[j].uid != uid)
                           && r.value == GetRelevantTokenTypes(devices, assignments, uid, OrElse(users[i].userType, "GLOBAL")))
  {
    match FindFirst(users, (u: User) => u.uid == uid)
    case None => None
    case Some(user) => Some(GetRelevantTokenTypes(devices, assignments, uid, OrElse(user.userType, "GLOBAL")))
  }

  /** `tokens[t] || 0`. */
  function Balance(tokens: map<string, int>, t: string): int {
    if t in tokens then tokens[t] else 0
  }

  /** The `+`/`−` buttons: one step, never below zero. */
  function AdjustedValue(current: int, delta: int): (r: int)
    ensures r >= 0
    ensures current + delta >= 0 ==> r == current + delta
    ensures current + delta < 0 ==> r == 0
  {
    if current + delta > 0 then current + delta else 0
  }

  /** Whether the input for `t` holds a balance other than the stored one. */
  predicate Changed(tokens: map<string, int>, inputs: map<string, int>, t: string) {
    t in inputs && inputs[t] != Balance(tokens, t)
  }

  /** The update list a submit sends: for each relevant type, in order,
      the difference between the entered and the stored balance when they
      differ. */
  function Changes(types: seq<string>, tokens: map<string, int>, inputs: map<string, int>): seq<(string, int)>
    decreases |types|
  {
    if types == [] then []
    else
      var t := types[0];
      var rest := Changes(types[1..], tokens, inputs);
      if Changed(tokens, inputs, t) then [(t, inputs[t] - Balance(tokens, t))] + rest else rest
  }

  function ChangedType(c: (string, int)): string {
    c.0
  }

  /** Every update names a relevant type whose input differs, with delta
      new minus old, never zero. */
  lemma {:induction false} ChangesSound(types: seq<string>, tokens: map<string, int>, inputs: map<string, int>)
    ensures forall c :: c in Changes(types, tokens, inputs) ==>
              c.0 in types && Changed(tokens, inputs, c.0) && c.1 == inputs[c.0] - Balance(tokens, c.0) && c.1 != 0
    decreases |types|
  {
    if types != [] {
      ChangesSound(types[1..], tokens, inputs);
      var rest := Changes(types[1..], tokens, inputs);
      assert forall x :: x in types[1..] ==> x in types;
      var r := Changes(types, tokens, inputs);
      if Changed(tokens, inputs, types[0]) {
        assert r == [(types[0], inputs[types[0]] - Balance(tokens, types[0]))] + rest;
        assert forall k :: 1 <= k < |r| ==> r[k] == rest[k - 1];
      } else {
        assert r == rest;
      }
    }
  }

  /** Every relevant type whose input differs has an update. */
  lemma {:induction false} ChangesComplete(types: seq<string>, tokens: map<string, int>, inputs: map<string, int>, t: string)
    requires t in types && Changed(tokens, inputs, t)
    ensures exists k :: 0 <= k < |Changes(types, tokens, inputs)| && Changes(types, tokens, inputs)[k].0 == t
    decreases |types|
  {
    var r := Changes(types, tokens, inputs);
    if types[0] == t {
      assert r[0].0 == t;
    } else {
      ChangesComplete(types[1..], tokens, inputs, t);
      var rest := Changes(types[1..], tokens, inputs);
      var k :| 0 <= k < |rest| && rest[k].0 == t;
      if Changed(tokens, inputs, types[0]) {
        assert r[k + 1] == rest[k];
      }
    }
  }

  /** The updates follow the order of the relevant types. */
  lemma {:induction false} ChangesInOrder(types: seq<string>, tokens: map<string, int>, inputs: map<string, int>)
    ensures IsSubsequence(Map(Changes(types, tokens, inputs), ChangedType), types)
    decreases |types|
  {
    if types != [] {
      ChangesInOrder(types[1..], tokens, inputs);
      var rest := Map(Changes(types[1..], tokens, inputs), ChangedType);
      var t := types[0];
      assert types == [t] + types[1..];
      if Changed(tokens, inputs, t) {
        assert Map(Changes(types, tokens, inputs), ChangedType) == [t] + rest;
        ConsSubsequence(t, rest, types[1..]);
      } else {
        SubsequenceDropHead(rest, types);
      }
    }
  }

  lemma ConsSubsequence(x: string, a: seq<string>, b: seq<string>)
    requires IsSubsequence(a, b)
    ensures IsSubsequence([x] + a, [x] + b)
  {
    assert ([x] + a)[1..] == a && ([x] + b)[1..] == b;
  }

  /** The adjust-tokens dialog of one user: the inputs start at the
      stored balances of the relevant types and are edited by the buttons
      or by typing. */
  class TokenDialog {
    const uid: string
    const types: seq<string>
    const tokens: map<string, int>
    var inputs: map<string, int>

    constructor(user: User, types: seq<string>)
      ensures uid == user.uid && this.types == types && tokens == user.tokens
      ensures inputs.Keys == set t | t in types
      ensures forall t :: t in types ==> inputs[t] == Balance(user.tokens, t)
    {
      uid := user.uid;
      this.types := types;
      tokens := user.tokens;
      inputs := map t | t in types :: Balance(user.tokens, t);
    }

    /** `adjustTokenValue`: a step on one input, floored at zero; an input
        that does not exist is ignored. */
    method AdjustTokenValue(t: string, delta: int)
      modifies this`inputs
      ensures t in old(inputs) ==> inputs == old(inputs)[t := AdjustedValue(old(inputs)[t], delta)]
      ensures t !in old(inputs) ==> inputs == old(inputs)
    {
      if t in inputs {
        inputs := inputs[t := AdjustedValue(inputs[t], delta)];
      }
    }

    /** Typing a number into an input. */
    method Enter(t: string, v: int)
      modifies this`inputs
      ensures t in old(inputs) ==> inputs == old(inputs)[t := v]
      ensures t !in old(inputs) ==> inputs == old(inputs)
    {
      if t in inputs {
        inputs := inputs[t := v];
      }
    }

    /** Collects the changed balances; the update requests are sent only
        when there is at least one. */
    method Submit() returns (updates: seq<(string, int)>, sent: bool)
      ensures updates == Changes(types, tokens, inputs)
      ensures sent <==> updates != []
    {
      updates := [];
      var i := 0;
      while i < |types|
        invariant 0 <= i <= |types|
        invariant updates + Changes(types[i..], tokens, inputs) == Changes(types, tokens, inputs)
      {
        var t := types[i];
        assert types[i..][0] == t && types[i..][1..] == types[i + 1..];
        if t in inputs {
          var newBalance := inputs[t];
          var oldBalance := Balance(tokens, t);
          if newBalance != oldBalance {
            updates := updates + [(t, newBalance - oldBalance)];
          }
        }
        i := i + 1;
      }
      sent := |updates| > 0;
    }
  }

  /** An unedited dialog submits nothing. */
  lemma {:induction false} UneditedSubmitsNothing(types: seq<string>, tokens: map<string, int>, inputs: map<string, int>)
    requires forall t :: t in types ==> t in inputs && inputs[t] == Balance(tokens, t)
    ensures Changes(types, tokens, inputs) == []
    decreases |types|
  {
    if types != [] {
      UneditedSubmitsNothing(types[1..], tokens, inputs);
    }
  }

  // ---------------------------------------------------------------------
  // Status toggle

  /** The status a toggle sets: INACTIVO for an ACTIVO user, ACTIVO for any
      other. */
  function NextStatus(status: string): (r: string)
    ensures r == Config.Active || r == Config.Inactive
    ensures r != status || status !in {Config.Active, Config.Inactive}
  {
    if status == Config.Active then Config.Inactive else Config.Active
  }

  /** Toggling twice restores either status. */
  lemma ToggleTwice(status: string)
    requires status == Config.Active || status == Config.Inactive
    ensures NextStatus(NextStatus(status)) == status
  {
  }

  /** The update a confirmed toggle sends; nothing for an unknown user or
      a cancelled dialog. */
  function ToggleRequest(users: seq<User>, uid: string, confirmed: bool): (r: Option<(string, string)>)
    ensures r.Some? <==> confirmed && exists i :: 0 <= i < |users| && users[i].uid == uid
    ensures r.Some? ==>
              r.value.0 == uid
              && exists i :: (0 <= i < |users| && users[i].uid == uid && (forall j :: 0 <= j < i ==> users[j].uid != uid)
                              && r.value.1 == NextStatus(users[i].status))
  {
    var user := FindFirst(users, (u: User) => u.uid == uid);
    if user.None? || !confirmed then None else Some((uid, NextStatus(user.value.status)))
  }

  // ---------------------------------------------------------------------
  // The view

  class UsersView {
    var users: seq<User>
    var searchTerm: string
    var filterStatus: string
    var sortName: string
    /** The rows last handed to the table. */
    var shown: seq<User>

    constructor(users: seq<User>)
      ensures this.users == users && searchTerm == "" && filterStatus == "" && sortName == "" && shown == []
    {
      this.users := users;
      searchTerm := "";
      filterStatus := "";
      sortName := "";
      shown := [];
    }

    method Render()
      modifies this`shown
      ensures shown == GetFilteredUsers(users, searchTerm, filterStatus, sortName)
    {
      shown := GetFilteredUsers(users, searchTerm, filterStatus, sortName);
    }

    /** `handleSearch`: the term is stored lower-cased and the table redrawn. */
    method HandleSearch(term: string)
      modifies this`searchTerm, this`shown
      ensures searchTerm == ToLower(term)
      ensures shown == GetFilteredUsers(users, searchTerm, filterStatus, sortName)
    {
      searchTerm := ToLower(term);
      Render();
    }

    method SetStatusFilter(status: string)
      modifies this`filterStatus, this`shown
      ensures filterStatus == status
      ensures shown == GetFilteredUsers(users, searchTerm, filterStatus, sortName)
    {
      filterStatus := status;
      Render();
    }

    method SetSort(order: string)
      modifies this`sortName, this`shown
      ensures sortName == order
      ensures shown == GetFilteredUsers(users, searchTerm, filterStatus, sortName)
    {
      sortName := order;
      Render();
    }

    /** The reset button clears search, status and sort, which lists every
        user in stored order. */
    method Reset()
      modifies this`searchTerm, this`filterStatus, this`sortName, this`shown
      ensures searchTerm == "" && filterStatus == "" && sortName == ""
      ensures shown == users
    {
      searchTerm := "";
      filterStatus := "";
      sortName := "";
      Render();
    }
  }
}
