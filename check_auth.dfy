/** The client's route guard: which page a location renders or redirects to,
    given the login state, and what it leaves in session storage under
    `redirectAfterLogin`. */
module CheckAuth {

  import opened Wrappers
  import opened Text

  /** The logged-in user as the auth store holds it; a missing role is "". */
  datatype User = User(role: string)

  datatype View = Render | Navigate(to: string)

  /** The view and the `redirectAfterLogin` entry left behind. */
  datatype Decision = Decision(view: View, redirectAfterLogin: Option<string>)

  const AdminHome := "/admin/dashboard"
  const ShopHome := "/shop/home"
  const LoginPage := "/auth/login"
  const UnauthPage := "/unauth-page"

  predicate IsAdmin(user: Option<User>) {
    user.Some? && user.value.role == "admin"
  }

  /** `publicRoutes.some(route => pathname.includes(route))`. */
  predicate IsPublicRoute(path: string) {
    Contains(path, "/shop/home") || Contains(path, "/shop/listing") || Contains(path, "/shop/search")
  }

  predicate IsAuthPage(path: string) {
    Contains(path, "/auth/")
  }

  /** The guard's decision table, in the order the branches are tried. A
      stored entry counts only when it is a non-empty string. */
  function Decide(path: string, isAuthenticated: bool, user: Option<User>, stored: Option<string>): Decision {
    if IsAuthPage(path) then
      if isAuthenticated && user.Some? then
        if stored.Some? && stored.value != "" then Decision(Navigate(stored.value), None)
        else if IsAdmin(user) then Decision(Navigate(AdminHome), stored)
        else Decision(Navigate(ShopHome), stored)
      else Decision(Render, stored)
    else if path == "/" then
      if isAuthenticated && IsAdmin(user) then Decision(Navigate(AdminHome), stored)
      else Decision(Navigate(ShopHome), stored)
    else if IsPublicRoute(path) then
      if isAuthenticated && IsAdmin(user) then Decision(Navigate(AdminHome), stored)
      else Decision(Render, stored)
    else if !isAuthenticated then Decision(Navigate(LoginPage), Some(path))
    else if !IsAdmin(user) && Contains(path, "/admin") then Decision(Navigate(UnauthPage), stored)
    else if IsAdmin(user) && Contains(path, "/shop") then Decision(Navigate(AdminHome), stored)
    else Decision(Render, stored)
  }

  /** The tab's session storage, as far as the guard uses it. */
  class SessionStore {
    var redirectAfterLogin: Option<string>

    constructor (initial: Option<string>)
      ensures redirectAfterLogin == initial
    {
      redirectAfterLogin := initial;
    }
  }

  /** One render of `CheckAuth`: reads, removes or writes the stored redirect
      and picks the view. */
  method Guard(session: SessionStore, path: string, isAuthenticated: bool, user: Option<User>) returns (view: View)
    modifies session
    ensures view == Decide(path, isAuthenticated, user, old(session.redirectAfterLogin)).view
    ensures session.redirectAfterLogin == Decide(path, isAuthenticated, user, old(session.redirectAfterLogin)).redirectAfterLogin
  {
    var isPublicRoute := IsPublicRoute(path);
    if IsAuthPage(path) {
      if isAuthenticated && user.Some? {
        var redirectPath := session.redirectAfterLogin;
        if redirectPath.Some? && redirectPath.value != "" {
          session.redirectAfterLogin := None;
          return Navigate(redirectPath.value);
        }
        if IsAdmin(user) {
          return Navigate(AdminHome);
        } else {
          return Navigate(ShopHome);
        }
      }
      return Render;
    }
    if path == "/" {
      if isAuthenticated && IsAdmin(user) {
        return Navigate(AdminHome);
      }
      return Navigate(ShopHome);
    }
    if isPublicRoute {
      if isAuthenticated && IsAdmin(user) {
        return Navigate(AdminHome);
      }
      return Render;
    }
    if !isAuthenticated {
      session.redirectAfterLogin := Some(path);
      return Navigate(LoginPage);
    }
    if !IsAdmin(user) && Contains(path, "/admin") {
      return Navigate(UnauthPage);
    }
    if IsAdmin(user) && Contains(path, "/shop") {
      return Navigate(AdminHome);
    }
    return Render;
  }
}

/** The guard's decision table, row by row, and what it guarantees overall. */
module CheckAuthProperties {

  import opened Wrappers
  import opened Text
  import opened CheckAuth

  /** On an auth page a logged-in user with a stored redirect goes there, and
      the entry is removed. */
  lemma StoredRedirectWins(path: string, user: User, target: string)
    requires IsAuthPage(path) && target != ""
    ensures Decide(path, true, Some(user), Some(target)) == Decision(Navigate(target), None)
  {
  }

  /** Without a stored redirect an auth page sends an admin to the dashboard,
      any other logged-in user to the shop, and shows itself otherwise. */
  lemma AuthPageDefaults(path: string, isAuthenticated: bool, user: Option<User>, stored: Option<string>)
    requires IsAuthPage(path)
    requires stored.None? || stored.value == ""
    ensures isAuthenticated && IsAdmin(user) ==> Decide(path, isAuthenticated, user, stored) == Decision(Navigate(AdminHome), stored)
    ensures isAuthenticated && user.Some? && !IsAdmin(user) ==> Decide(path, isAuthenticated, user, stored) == Decision(Navigate(ShopHome), stored)
    ensures !isAuthenticated || user.None? ==> Decide(path, isAuthenticated, user, stored) == Decision(Render, stored)
  {
  }

  /** "/" is never rendered: an admin goes to the dashboard, everyone else to the shop. */
  lemma RootRedirects(isAuthenticated: bool, user: Option<User>, stored: Option<string>)
    ensures Decide("/", isAuthenticated, user, stored).view ==
            if isAuthenticated && IsAdmin(user) then Navigate(AdminHome) else Navigate(ShopHome)
  {
    CharMissingExcludes("/", "/auth/", 1);
  }

  /** A public page renders for everyone but a logged-in admin. */
  lemma PublicPages(path: string, isAuthenticated: bool, user: Option<User>, stored: Option<string>)
    requires IsPublicRoute(path) && !IsAuthPage(path)
    ensures Decide(path, isAuthenticated, user, stored).redirectAfterLogin == stored
    ensures Decide(path, isAuthenticated, user, stored).view ==
            if isAuthenticated && IsAdmin(user) then Navigate(AdminHome) else Render
  {
    assert !IsPublicRoute("/") by {
      CharMissingExcludes("/", "/shop/home", 1);
      CharMissingExcludes("/", "/shop/listing", 1);
      CharMissingExcludes("/", "/shop/search", 1);
    }
  }

  /** Any other page, when logged out, remembers itself and goes to the login page. */
  lemma LoggedOutProtectedPage(path: string, user: Option<User>, stored: Option<string>)
    requires !IsAuthPage(path) && path != "/" && !IsPublicRoute(path)
    ensures Decide(path, false, user, stored) == Decision(Navigate(LoginPage), Some(path))
  {
  }

  /** The role checks on a protected page. */
  lemma RoleChecks(path: string, user: Option<User>, stored: Option<string>)
    requires !IsAuthPage(path) && path != "/" && !IsPublicRoute(path)
    ensures !IsAdmin(user) && Contains(path, "/admin") ==> Decide(path, true, user, stored).view == Navigate(UnauthPage)
    ensures IsAdmin(user) && Contains(path, "/shop") ==> Decide(path, true, user, stored).view == Navigate(AdminHome)
    ensures !(!IsAdmin(user) && Contains(path, "/admin")) && !(IsAdmin(user) && Contains(path, "/shop")) ==>
            Decide(path, true, user, stored).view == Render
  {
  }

  /** A page under "/admin" renders for someone other than a logged-in admin
      only when it is also an auth page or a public page. */
  lemma AdminPagesNeedAdmin(path: string, isAuthenticated: bool, user: Option<User>, stored: Option<string>)
    requires Contains(path, "/admin")
    requires Decide(path, isAuthenticated, user, stored).view == Render
    ensures (isAuthenticated && IsAdmin(user)) || IsAuthPage(path) || IsPublicRoute(path)
  {
  }

  /** A logged-out visitor sees only auth pages and public pages. */
  lemma LoggedOutSeesOnlyOpenPages(path: string, user: Option<User>, stored: Option<string>)
    requires Decide(path, false, user, stored).view == Render
    ensures IsAuthPage(path) || IsPublicRoute(path)
  {
  }

  /** The stored entry changes only when a logged-in user leaves an auth page
      through it, or when a logged-out visitor is sent to log in. */
  lemma StoredRedirectChanges(path: string, isAuthenticated: bool, user: Option<User>, stored: Option<string>)
    requires Decide(path, isAuthenticated, user, stored).redirectAfterLogin != stored
    ensures || (IsAuthPage(path) && stored.Some? && Decide(path, isAuthenticated, user, stored) == Decision(Navigate(stored.value), None))
            || Decide(path, isAuthenticated, user, stored) == Decision(Navigate(LoginPage), Some(path))
  {
  }

  /** The fixed pages the guard sends people to render for those it sends
      there, so one redirect ends the chain: the dashboard for an admin, ... */
  lemma AdminHomeRendersForAdmin(stored: Option<string>)
    ensures Decide(AdminHome, true, Some(User("admin")), stored).view == Render
  {
    AdminHomeIsPlain();
  }

  /** The dashboard is neither an auth page nor a public one, and lies outside /shop. */
  lemma AdminHomeIsPlain()
    ensures !IsAuthPage(AdminHome) && !IsPublicRoute(AdminHome) && !Contains(AdminHome, "/shop")
  {
    assert !Contains("/admin/dashboard", "/auth/") by { CharMissingExcludes("/admin/dashboard", "/auth/", 2); }
    assert !Contains("/admin/dashboard", "/shop/home") by { CharMissingExcludes("/admin/dashboard", "/shop/home", 4); }
    assert !Contains("/admin/dashboard", "/shop/listing") by { CharMissingExcludes("/admin/dashboard", "/shop/listing", 4); }
    assert !Contains("/admin/dashboard", "/shop/search") by { CharMissingExcludes("/admin/dashboard", "/shop/search", 4); }
    assert !Contains("/admin/dashboard", "/shop") by { CharMissingExcludes("/admin/dashboard", "/shop", 4); }
  }

  /** ... the shop's home for anyone who is not a logged-in admin, ... */
  lemma ShopHomeRendersForShoppers(isAuthenticated: bool, user: Option<User>, stored: Option<string>)
    requires !(isAuthenticated && IsAdmin(user))
    ensures Decide(ShopHome, isAuthenticated, user, stored).view == Render
  {
    assert !Contains("/shop/home", "/auth/") by { CharMissingExcludes("/shop/home", "/auth/", 1); }
    assert OccursAt("/shop/home", "/shop/home", 0);
  }

  /** ... the login page for a logged-out visitor, ... */
  lemma LoginPageRendersLoggedOut(user: Option<User>, stored: Option<string>)
    ensures Decide(LoginPage, false, user, stored).view == Render
  {
    assert OccursAt("/auth/login", "/auth/", 0) by { assert "/auth/login"[0..6] == "/auth/"; }
  }

  /** ... and the refusal page for a logged-in user who is not an admin. */
  lemma UnauthPageRendersForNonAdmin(user: Option<User>, stored: Option<string>)
    requires !IsAdmin(user)
    ensures Decide(UnauthPage, true, user, stored).view == Render
  {
    UnauthPageIsPlain();
  }

  /** The refusal page is neither an auth page nor a public one, and lies outside /admin. */
  lemma UnauthPageIsPlain()
    ensures !IsAuthPage(UnauthPage) && !IsPublicRoute(UnauthPage) && !Contains(UnauthPage, "/admin")
  {
    assert !Contains("/unauth-page", "/auth/") by { CharMissingLateExcludes("/unauth-page", "/auth/", 5); }
    assert !Contains("/unauth-page", "/shop/home") by { CharMissingExcludes("/unauth-page", "/shop/home", 1); }
    assert !Contains("/unauth-page", "/shop/listing") by { CharMissingExcludes("/unauth-page", "/shop/listing", 1); }
    assert !Contains("/unauth-page", "/shop/search") by { CharMissingExcludes("/unauth-page", "/shop/search", 1); }
    assert !Contains("/unauth-page", "/admin") by { CharMissingExcludes("/unauth-page", "/admin", 2); }
  }
}
