/*
 * The web console's application shell: start-up, the login form, the
 * navigation gate that consults the permission table, the page loaders
 * and the role-dependent navigation entries.
 */
module Shell {
  import opened JsValues
  import opened Strings
  import Auth
  import Utils

  /** The data loaders a page can trigger. */
  datatype Loader = DashboardLoad | UsersLoad | DevicesLoad | LogsLoad | TokensLoad | RolesLoad

  datatype Screen = LoginScreen | AppScreen

  /** The permission a page requires; pages outside the map are not gated. */
  function PagePermission(page: string): (r: Option<string>)
    ensures r.Some? ==> r.value == page + ".view"
    ensures r.Some? <==> page in {"dashboard", "users", "devices", "logs", "tokens", "roles"}
  {
    match page
    case "dashboard" => Some("dashboard.view")
    case "users" => Some("users.view")
    case "devices" => Some("devices.view")
    case "logs" => Some("logs.view")
    case "tokens" => Some("tokens.view")
    case "roles" => Some("roles.view")
    case _ => None
  }

  /** The loader `loadPageData` runs for a page name, if any. */
  function LoaderFor(page: string): (r: Option<Loader>)
    ensures r.Some? <==> PagePermission(page).Some?
  {
    match page
    case "dashboard" => Some(DashboardLoad)
    case "users" => Some(UsersLoad)
    case "devices" => Some(DevicesLoad)
    case "logs" => Some(LogsLoad)
    case "tokens" => Some(TokensLoad)
    case "roles" => Some(RolesLoad)
    case _ => None
  }

  /** The loads a page name triggers: one for a known page, none otherwise. */
  function LoadsFor(page: string): (r: seq<Loader>)
    ensures |r| <= 1
    ensures |r| == 1 <==> LoaderFor(page).Some?
  {
    match LoaderFor(page)
    case Some(l) => [l]
    case None => []
  }

  /** Distinct pages have distinct loaders. */
  lemma LoadersDistinct(p: string, q: string)
    requires LoaderFor(p).Some? && p != q
    ensures LoaderFor(p) != LoaderFor(q)
  {
  }

  /** Whether navigation to `page` is refused for the session in `auth`. */
  predicate Denied(auth: Auth.AuthStore, page: string)
    reads auth
  {
    PagePermission(page).Some? && !auth.Can(PagePermission(page).value)
  }

  class App {
    const auth: Auth.AuthStore
    var currentPage: string
    var screen: Screen
    var rolesNavHidden: bool
    var tokensNavHidden: bool
    /** The loaders run so far, oldest first. */
    var loads: seq<Loader>

    constructor(auth: Auth.AuthStore)
      ensures this.auth == auth
      ensures currentPage == "dashboard" && screen == LoginScreen && loads == []
      ensures !rolesNavHidden && !tokensNavHidden
    {
      this.auth := auth;
      currentPage := "dashboard";
      screen := LoginScreen;
      rolesNavHidden := false;
      tokensNavHidden := false;
      loads := [];
    }

    /** Runs the loader of one page; unknown names run none. */
    method LoadPageData(page: string)
      modifies this`loads
      ensures loads == old(loads) + LoadsFor(page)
    {
      var l := LoaderFor(page);
      if l.Some? {
        loads := loads + [l.value];
      }
    }

    /** Shows `page` if the session may see it. A refused page changes
        nothing and loads nothing. */
    method NavigateTo(page: string)
      modifies this`currentPage, this`loads
      ensures Denied(auth, page) ==> currentPage == old(currentPage) && loads == old(loads)
      ensures !Denied(auth, page) ==> currentPage == page && loads == old(loads) + LoadsFor(page)
    {
      var required := PagePermission(page);
      if required.Some? && !auth.Can(required.value) {
        return;
      }
      currentPage := page;
      LoadPageData(page);
    }

    /** Reloads the current page without moving. */
    method Refresh()
      modifies this`loads
      ensures currentPage == old(currentPage)
      ensures loads == old(loads) + LoadsFor(currentPage)
    {
      LoadPageData(currentPage);
    }

    /** Hides the roles and token-type entries from sessions that may not
        view them. */
    method UpdateNavVisibility()
      modifies this`rolesNavHidden, this`tokensNavHidden
      ensures rolesNavHidden <==> !auth.Can("roles.view")
      ensures tokensNavHidden <==> !auth.Can("tokens.view")
    {
      rolesNavHidden := !auth.Can("roles.view");
      tokensNavHidden := !auth.Can("tokens.view");
    }

    method ShowLogin()
      modifies this`screen
      ensures screen == LoginScreen
    {
      screen := LoginScreen;
    }

    /** Enters the console: navigation entries are set for the role and
        the dashboard is opened if the role allows it. */
    method ShowApp()
      modifies this`screen, this`rolesNavHidden, this`tokensNavHidden, this`currentPage, this`loads
      ensures screen == AppScreen
      ensures rolesNavHidden <==> !auth.Can("roles.view")
      ensures tokensNavHidden <==> !auth.Can("tokens.view")
      ensures auth.Can("dashboard.view") ==> currentPage == "dashboard" && loads == old(loads) + [DashboardLoad]
      ensures !auth.Can("dashboard.view") ==> currentPage == old(currentPage) && loads == old(loads)
    {
      screen := AppScreen;
      UpdateNavVisibility();
      NavigateTo("dashboard");
    }

    /** Start-up: the console when a session is stored, the login page
        otherwise. */
    method Init()
      modifies this, auth
      ensures screen == AppScreen <==> Auth.StoredSession(old(auth.storage)).Some?
      ensures auth.storage == old(auth.storage)
    {
      var ok := auth.Init();
      if ok {
        ShowApp();
      } else {
        ShowLogin();
      }
    }

    /** Submits the login form. An address that fails the email check is
        refused before any request; otherwise `resp` is the backend's
        answer for the trimmed address. */
    method HandleLogin(typed: string, resp: Auth.AdminResponse) returns (requested: bool, result: Option<Auth.LoginResult>)
      modifies this, auth
      ensures requested <==> Utils.IsValidEmail(Trim(typed))
      ensures !requested ==>
                result.None? && auth.storage == old(auth.storage)
                && auth.currentUser == old(auth.currentUser) && screen == old(screen)
      ensures requested ==> result == Some(Auth.LoginOutcome(resp))
      ensures requested && result.value.LoggedIn? ==> screen == AppScreen && auth.currentUser == Some(result.value.user)
      ensures requested && result.value.Failed? ==>
                auth.storage == old(auth.storage)
                && auth.currentUser == old(auth.currentUser) && screen == old(screen)
    {
      var email := Trim(typed);
      if !Utils.IsValidEmail(email) {
        return false, None;
      }
      var r := auth.Login(resp);
      if r.LoggedIn? {
        ShowApp();
      }
      return true, Some(r);
    }

    /** Confirmed logout: the session is cleared and the login page shown. */
    method HandleLogout(confirmed: bool)
      modifies this`screen, auth
      ensures confirmed ==>
                auth.currentUser == None && screen == LoginScreen
                && auth.storage == Auth.RemoveSession(old(auth.storage))
      ensures !confirmed ==>
                auth.currentUser == old(auth.currentUser) && screen == old(screen)
                && auth.storage == old(auth.storage)
    {
      if confirmed {
        auth.Logout();
        ShowLogin();
      }
    }
  }

  /** Pages outside the permission map are never refused by the gate. */
  lemma UngatedPages(auth: Auth.AuthStore)
    ensures !Denied(auth, "houses") && !Denied(auth, "masterkeys")
  {
  }

  /** A VIEWER is refused the token-type and role pages but reaches the
      dashboard, users, devices and logs. */
  lemma ViewerNavigation(auth: Auth.AuthStore)
    requires auth.currentUser.Some? && auth.currentUser.value.role == "VIEWER"
    ensures Denied(auth, "tokens") && Denied(auth, "roles")
    ensures !Denied(auth, "dashboard") && !Denied(auth, "users") && !Denied(auth, "devices") && !Denied(auth, "logs")
  {
    Auth.TableExamples();
  }

  /** Without a session every mapped page is refused. */
  lemma NoSessionNoPages(auth: Auth.AuthStore, page: string)
    requires auth.currentUser.None?
    ensures Denied(auth, page) <==> PagePermission(page).Some?
  {
  }
}
