/*
 * The web console's session and capability model: a single session record
 * kept in browser storage, created by login, read back at start-up and
 * removed by logout, and a static role-to-action permission table that
 * fails closed.
 */
module Auth {
  import opened JsValues
  import Config

  /** The signed-in administrator. */
  datatype Session = Session(email: string, role: string, name: string)

  /** An administrator record as the backend returns it; an absent name
      is the empty string. */
  datatype Admin = Admin(email: string, role: string, name: string, status: string)

  /** The backend's answer to an administrator lookup. */
  datatype AdminResponse =
    | NetworkError
    | Reply(success: bool, admin: Option<Admin>)

  datatype LoginError = Inactive | Unauthorized | Network

  datatype LoginResult = LoggedIn(user: Session) | Failed(error: LoginError)

  /** `localStorage.getItem(key)` read as a truthy string. */
  predicate StoredNonEmpty(storage: map<string, string>, key: string) {
    key in storage && storage[key] != ""
  }

  /** The session `init` reads back from storage: present exactly when
      both the email and the role are stored and non-empty; the name falls
      back to the email. */
  function StoredSession(storage: map<string, string>): (r: Option<Session>)
    ensures r.Some? <==> StoredNonEmpty(storage, Config.UserEmailKey) && StoredNonEmpty(storage, Config.UserRoleKey)
    ensures r.Some? ==> r.value.email == storage[Config.UserEmailKey] && r.value.role == storage[Config.UserRoleKey]
    ensures r.Some? && !StoredNonEmpty(storage, Config.UserNameKey) ==> r.value.name == r.value.email
    ensures r.Some? && StoredNonEmpty(storage, Config.UserNameKey) ==> r.value.name == storage[Config.UserNameKey]
  {
    if StoredNonEmpty(storage, Config.UserEmailKey) && StoredNonEmpty(storage, Config.UserRoleKey) then
      var email := storage[Config.UserEmailKey];
      var name := if Config.UserNameKey in storage then storage[Config.UserNameKey] else "";
      Some(Session(email, storage[Config.UserRoleKey], OrElse(name, email)))
    else None
  }

  /** What a login attempt decides from the backend's answer. */
  function LoginOutcome(resp: AdminResponse): (r: LoginResult)
    ensures r.LoggedIn? <==> resp.Reply? && resp.success && resp.admin.Some? && resp.admin.value.status == Config.Active
    ensures r.LoggedIn? ==> r.user.email == resp.admin.value.email && r.user.role == resp.admin.value.role
    ensures r.LoggedIn? ==> r.user.name == OrElse(resp.admin.value.name, resp.admin.value.email)
    ensures r == Failed(Network) <==> resp.NetworkError?
    ensures r == Failed(Inactive) <==> resp.Reply? && resp.success && resp.admin.Some? && resp.admin.value.status != Config.Active
  {
    match resp
    case NetworkError => Failed(Network)
    case Reply(success, admin) =>
      if success && admin.Some? then
        var a := admin.value;
        if a.status != Config.Active then Failed(Inactive)
        else LoggedIn(Session(a.email, a.role, OrElse(a.name, a.email)))
      else Failed(Unauthorized)
  }

  /** Storage after a successful login has written the three keys. */
  function WriteSession(storage: map<string, string>, s: Session): map<string, string> {
    storage[Config.UserEmailKey := s.email][Config.UserRoleKey := s.role][Config.UserNameKey := s.name]
  }

  /** Storage after logout has removed the three keys. */
  function RemoveSession(storage: map<string, string>): map<string, string> {
    storage - {Config.UserEmailKey, Config.UserRoleKey, Config.UserNameKey}
  }

  /** The roles the permission table grants an action; no role for an
      action the table does not list. MASTER is in every non-empty entry,
      and every entry that admits a lower role admits the higher ones. */
  function PermittedRoles(action: string): (roles: set<string>)
    ensures roles <= {Config.Master, Config.Admin, Config.Viewer}
    ensures roles != {} ==> Config.Master in roles
    ensures Config.Viewer in roles ==> Config.Admin in roles
    ensures action !in KnownActions ==> roles == {}
  {
    var all := {Config.Master, Config.Admin, Config.Viewer};
    var managers := {Config.Master, Config.Admin};
    var master := {Config.Master};
    match action
    case "users.view" => all
    case "users.create" => managers
    case "users.edit" => managers
    case "users.toggleStatus" => managers
    case "users.adjustTokens" => managers
    case "devices.view" => all
    case "devices.create" => master
    case "devices.edit" => master
    case "devices.toggleStatus" => master
    case "devices.viewHistory" => master
    case "logs.view" => all
    case "logs.export" => managers
    case "roles.view" => master
    case "roles.create" => master
    case "roles.edit" => master
    case "roles.viewAdminLog" => master
    case "tokens.view" => master
    case "tokens.create" => master
    case "tokens.edit" => master
    case "tokens.delete" => master
    case "houses.view" => managers
    case "houses.create" => master
    case "houses.edit" => master
    case "houses.delete" => master
    case "masterkeys.view" => master
    case "masterkeys.create" => master
    case "masterkeys.edit" => master
    case "masterkeys.delete" => master
    case "dashboard.view" => all
    case _ => {}
  }

  /** The actions the permission table lists. */
  const KnownActions: set<string> := {
    "users.view", "users.create", "users.edit", "users.toggleStatus", "users.adjustTokens",
    "devices.view", "devices.create", "devices.edit", "devices.toggleStatus", "devices.viewHistory",
    "logs.view", "logs.export",
    "roles.view", "roles.create", "roles.edit", "roles.viewAdminLog",
    "tokens.view", "tokens.create", "tokens.edit", "tokens.delete",
    "houses.view", "houses.create", "houses.edit", "houses.delete",
    "masterkeys.view", "masterkeys.create", "masterkeys.edit", "masterkeys.delete",
    "dashboard.view"
  }

  /** The session holder: the storage map and the current user. */
  class AuthStore {
    var storage: map<string, string>
    var currentUser: Option<Session>

    constructor(storage: map<string, string>)
      ensures this.storage == storage && currentUser == None
    {
      this.storage := storage;
      currentUser := None;
    }

    /** Restores the session from storage; returns whether there was one.
        Without a stored session the current user is left as it was. */
    method Init() returns (ok: bool)
      modifies this
      ensures storage == old(storage)
      ensures ok <==> StoredSession(storage).Some?
      ensures ok ==> currentUser == StoredSession(storage)
      ensures !ok ==> currentUser == old(currentUser)
    {
      var s := StoredSession(storage);
      if s.Some? {
        currentUser := s;
        return true;
      }
      return false;
    }

    /** Signs in with the backend's answer. A failed attempt writes nothing
        and leaves the current user unchanged. */
    method Login(resp: AdminResponse) returns (r: LoginResult)
      modifies this
      ensures r == LoginOutcome(resp)
      ensures r.Failed? ==> storage == old(storage) && currentUser == old(currentUser)
      ensures r.LoggedIn? ==> storage == WriteSession(old(storage), r.user) && currentUser == Some(r.user)
    {
      r := LoginOutcome(resp);
      if r.LoggedIn? {
        storage := storage[Config.UserEmailKey := r.user.email];
        storage := storage[Config.UserRoleKey := r.user.role];
        storage := storage[Config.UserNameKey := r.user.name];
        currentUser := Some(r.user);
      }
    }

    /** Clears the session from storage and memory. */
    method Logout()
      modifies this
      ensures storage == RemoveSession(old(storage))
      ensures currentUser == None
      ensures !IsLoggedIn()
    {
      storage := storage - {Config.UserEmailKey};
      storage := storage - {Config.UserRoleKey};
      storage := storage - {Config.UserNameKey};
      currentUser := None;
    }

    predicate IsLoggedIn()
      reads this
    {
      currentUser.Some?
    }

    function GetRole(): (r: Option<string>)
      reads this
      ensures r.Some? <==> IsLoggedIn()
      ensures r.Some? ==> r.value == currentUser.value.role
    {
      if currentUser.Some? then Some(currentUser.value.role) else None
    }

    predicate HasRole(role: string)
      reads this
      ensures HasRole(role) <==> GetRole() == Some(role)
    {
      currentUser.Some? && currentUser.value.role == role
    }

    predicate IsMaster()
      reads this
    {
      HasRole(Config.Master)
    }

    predicate IsAdmin()
      reads this
    {
      HasRole(Config.Master) || HasRole(Config.Admin)
    }

    /** `can(action)`: the session's role is one the table grants the
        action; false without a session or a role. */
    predicate Can(action: string)
      reads this
    {
      match GetRole()
      case None => false
      case Some(role) => role != "" && role in PermittedRoles(action)
    }
  }

  // ---------------------------------------------------------------------
  // Properties of the session and capability model.

  /** A session written by login is read back unchanged at the next start,
      as long as its email and role are non-empty. */
  lemma LoginThenInit(storage: map<string, string>, s: Session)
    requires s.email != "" && s.role != ""
    requires s.name == OrElse(s.name, s.email)
    ensures StoredSession(WriteSession(storage, s)) == Some(s)
  {
  }

  /** Every successful login produces a session the next start restores. */
  lemma {:induction false} LoginOutcomePersists(storage: map<string, string>, resp: AdminResponse)
    requires LoginOutcome(resp).LoggedIn?
    requires resp.admin.value.email != "" && resp.admin.value.role != ""
    ensures StoredSession(WriteSession(storage, LoginOutcome(resp).user)) == Some(LoginOutcome(resp).user)
  {
    LoginThenInit(storage, LoginOutcome(resp).user);
  }

  /** After logout nothing is restored at the next start. */
  lemma LogoutThenInit(storage: map<string, string>)
    ensures StoredSession(RemoveSession(storage)) == None
  {
    assert Config.UserEmailKey !in RemoveSession(storage);
  }

  /** Without a session no action is allowed. */
  lemma CanNeedsSession(a: AuthStore, action: string)
    requires a.currentUser == None
    ensures !a.Can(action)
  {
  }

  /** An action the table does not list is denied to every role. */
  lemma CanFailsClosed(a: AuthStore, action: string)
    requires action !in KnownActions
    ensures !a.Can(action)
  {
  }

  /** `can` holds exactly when the session's role is among the table's
      roles for the action. */
  lemma CanIffPermitted(a: AuthStore, action: string)
    ensures a.Can(action) <==> a.currentUser.Some? && a.currentUser.value.role in PermittedRoles(action)
  {
    if a.currentUser.Some? && a.currentUser.value.role in PermittedRoles(action) {
      assert a.currentUser.value.role != "";
    }
  }

  /** Roles are ordered: whatever ADMIN may do MASTER may do, and whatever
      VIEWER may do ADMIN may do. */
  lemma RolesNested(action: string)
    ensures Config.Admin in PermittedRoles(action) ==> Config.Master in PermittedRoles(action)
    ensures Config.Viewer in PermittedRoles(action) ==> Config.Admin in PermittedRoles(action)
  {
  }

  /** Samples of the table: device creation is MASTER only, user editing
      is MASTER and ADMIN, the dashboard is open to all three roles. */
  lemma TableExamples()
    ensures PermittedRoles("devices.create") == {Config.Master}
    ensures PermittedRoles("users.edit") == {Config.Master, Config.Admin}
    ensures PermittedRoles("dashboard.view") == {Config.Master, Config.Admin, Config.Viewer}
    ensures PermittedRoles("houses.view") == {Config.Master, Config.Admin}
  {
  }

  /** Every MASTER session may perform every listed action. */
  lemma MasterCanAll(a: AuthStore, action: string)
    requires a.IsMaster() && action in KnownActions
    ensures a.Can(action)
  {
  }

  /** `isMaster()` implies `isAdmin()`, and `isAdmin()` means the role is
      MASTER or ADMIN. */
  lemma MasterIsAdmin(a: AuthStore)
    ensures a.IsMaster() ==> a.IsAdmin()
    ensures a.IsAdmin() <==> a.currentUser.Some? && a.currentUser.value.role in {Config.Master, Config.Admin}
  {
  }
}
