/** The application shell: the authentication test, the route table, the
    session-expired flag driven by the `window` signal, and logout. */
module App {
  import opened Browser
  import opened Text
  import opened Jwt
  import Api
  import PrivateRoute

  const LoginRoute: string := "/login"
  const TasksRoute: string := "/tasks"
  const HomeRoute: string := "/"

  /** `isAuthenticated()`: `!!localStorage.getItem('access_token')`. */
  predicate IsAuthenticated(items: map<string, string>)
    ensures IsAuthenticated(items) <==> AccessToken in items && items[AccessToken] != ""
  {
    Truthy(Lookup(items, AccessToken))
  }

  /** The shell and the gateway agree on what a session is: the user counts as
      authenticated exactly when the outbound stage would attach a bearer
      header carrying the stored token. */
  lemma AuthenticatedIffStamped(items: map<string, string>, headers: map<string, string>)
    requires Api.Authorization !in headers
    ensures IsAuthenticated(items) <==>
      var h := Api.Stamp(items, headers);
      Api.Authorization in h && Api.BearerToken(h) == Some(items[AccessToken])
  {
    var h := Api.Stamp(items, headers);
    if IsAuthenticated(items) {
      assert h[Api.Authorization] == Api.Bearer(items[AccessToken]);
      assert Api.Bearer(items[AccessToken])[7..] == items[AccessToken];
    }
  }

  /** The pages the route table can render. */
  datatype Page = LoginPage | RegisterPage | TaskListPage | ProfilePage | SearchUsersPage | UserTasksPage | FollowedTasksPage

  /** A route's element: a page, or a `<Navigate>` to another path. */
  datatype Element = Render(page: Page) | Navigate(to: string)

  /** `/users/:owner_id/tasks`: one non-empty segment between the two fixed parts. */
  predicate IsUserTasksPath(path: string)
    ensures IsUserTasksPath(path) ==>
      (|path| > 13
       && var id := path[7..|path| - 6];
          id != [] && path == "/users/" + id + "/tasks" && (forall i :: 0 <= i < |id| ==> id[i] != '/'))
  {
    && StartsWith(path, "/users/") && EndsWith(path, "/tasks") && |path| > 13
    && (forall i :: 7 <= i < |path| - 6 ==> path[i] != '/')
  }

  /** The guarded page a path names, if any: the four fixed paths and the
      user-tasks pattern, and no other path. */
  function PrivatePage(path: string): (p: Option<Page>)
    ensures path == "/tasks" ==> p == Some(TaskListPage)
    ensures path == "/profile" ==> p == Some(ProfilePage)
    ensures path == "/search" ==> p == Some(SearchUsersPage)
    ensures path == "/followed_tasks" ==> p == Some(FollowedTasksPage)
    ensures p == Some(UserTasksPage) <==> IsUserTasksPath(path)
    ensures p.None? <==>
      path != "/tasks" && path != "/profile" && path != "/search" && path != "/followed_tasks" && !IsUserTasksPath(path)
    ensures p.Some? ==> p.value != LoginPage && p.value != RegisterPage
  {
    if path == "/tasks" then Some(TaskListPage)
    else if path == "/profile" then Some(ProfilePage)
    else if path == "/search" then Some(SearchUsersPage)
    else if path == "/followed_tasks" then
      assert !IsUserTasksPath(path) by { assert path[1] != "/users/"[1]; }
      Some(FollowedTasksPage)
    else if IsUserTasksPath(path) then Some(UserTasksPage)
    else None
  }

  /** The `<Routes>` table. Every redirect lands on the task list, the login
      page or `/`; the login and register pages are shown exactly to a user who
      is not authenticated, at their own paths. */
  function Route(path: string, items: map<string, string>, sessionExpired: bool,
                 decode: string -> Decoded, now: real): (e: Element)
    ensures e.Navigate? ==> e.to == TasksRoute || e.to == LoginRoute || e.to == HomeRoute
    ensures e == Render(LoginPage) <==> path == "/login" && !IsAuthenticated(items)
    ensures e == Render(RegisterPage) <==> path == "/register" && !IsAuthenticated(items)
  {
    if path == "/login" then
      if IsAuthenticated(items) then Navigate(TasksRoute) else Render(LoginPage)
    else if path == "/register" then
      if IsAuthenticated(items) then Navigate(TasksRoute) else Render(RegisterPage)
    else if PrivatePage(path).Some? then
      match PrivateRoute.Guard(sessionExpired, Lookup(items, AccessToken), decode, now)
      case Children => Render(PrivatePage(path).value)
      case Redirect(to) => Navigate(to)
    else if path == HomeRoute then
      if IsAuthenticated(items) then Navigate(TasksRoute) else Navigate(LoginRoute)
    else Navigate(HomeRoute)
  }

  /** The public pages send an authenticated user to the task list, and `/`
      sends everyone to the task list or the login page. */
  lemma PublicRoutes(items: map<string, string>, sessionExpired: bool, decode: string -> Decoded, now: real)
    ensures Route("/login", items, sessionExpired, decode, now)
            == if IsAuthenticated(items) then Navigate(TasksRoute) else Render(LoginPage)
    ensures Route("/register", items, sessionExpired, decode, now)
            == if IsAuthenticated(items) then Navigate(TasksRoute) else Render(RegisterPage)
    ensures Route(HomeRoute, items, sessionExpired, decode, now)
            == if IsAuthenticated(items) then Navigate(TasksRoute) else Navigate(LoginRoute)
  {
    assert PrivatePage(HomeRoute).None? by {
      assert !StartsWith(HomeRoute, "/users/");
    }
  }

  /** A guarded page renders exactly when the route guard says so, and
      otherwise the user lands on the login page; an unknown path goes home. */
  lemma PrivateRoutes(path: string, items: map<string, string>, sessionExpired: bool, decode: string -> Decoded, now: real)
    requires path != "/login" && path != "/register"
    ensures PrivatePage(path).Some? ==>
      var e := Route(path, items, sessionExpired, decode, now);
      && (e == Render(PrivatePage(path).value)
          <==> PrivateRoute.Guard(sessionExpired, Lookup(items, AccessToken), decode, now) == PrivateRoute.Children)
      && (e.Navigate? ==> e.to == LoginRoute)
    ensures PrivatePage(path).None? && path != HomeRoute ==> Route(path, items, sessionExpired, decode, now) == Navigate(HomeRoute)
  {
  }

  /** `/users/<id>/tasks` is guarded for every single-segment id. */
  lemma UserTasksRouteMatches(id: string)
    requires id != [] && forall i :: 0 <= i < |id| ==> id[i] != '/'
    ensures PrivatePage("/users/" + id + "/tasks") == Some(UserTasksPage)
  {
    var p := "/users/" + id + "/tasks";
    assert p[..7] == "/users/";
    assert p[|p| - 6..] == "/tasks";
    forall i | 7 <= i < |p| - 6
      ensures p[i] != '/'
    {
      assert p[i] == id[i - 7];
    }
  }

  /** After the gateway gives up on a session (both tokens removed and the
      signal sent), the shell no longer counts the user as authenticated. While
      the flag the signal sets is up, `/tasks` still renders its page beneath
      the session-expired modal; once the flag is cleared it leads to the login
      page. `/` leads to the login page either way. */
  lemma ExpiredSessionLeadsToLogin<D>(items: map<string, string>, config: Api.Config, defaultAuth: Option<string>,
                                      server: Api.Config -> Api.Reply<D>, refresh: string -> Api.RefreshReply<D>,
                                      sessionExpired: bool, decode: string -> Decoded, now: real)
    ensures var s := Api.Send(items, config, defaultAuth, server, refresh);
      s.events != [] ==>
        && !IsAuthenticated(s.items)
        && Route(TasksRoute, s.items, true, decode, now) == Render(TaskListPage)
        && Route(TasksRoute, s.items, false, decode, now) == Navigate(LoginRoute)
        && Route(HomeRoute, s.items, sessionExpired, decode, now) == Navigate(LoginRoute)
  {
    var s := Api.Send(items, config, defaultAuth, server, refresh);
    Api.StoreAndSignal(items, config, defaultAuth, server, refresh);
    PublicRoutes(s.items, sessionExpired, decode, now);
  }

  /** The shell: the session-expired flag and the identity of its listener. */
  class AppView {
    var sessionExpired: bool
    const listener: nat

    constructor (listener: nat)
      ensures !sessionExpired && this.listener == listener
    {
      sessionExpired := false;
      this.listener := listener;
    }

    /** The mount effect registers the listener. */
    method Mount(win: Window)
      modifies win
      ensures win.listeners == old(win.listeners) + {listener}
      ensures win.dispatched == old(win.dispatched)
    {
      win.AddEventListener(listener);
    }

    /** The effect's cleanup removes the same listener. */
    method Unmount(win: Window)
      modifies win
      ensures win.listeners == old(win.listeners) - {listener}
      ensures win.dispatched == old(win.dispatched)
    {
      win.RemoveEventListener(listener);
    }

    /** Delivery of one `sessionExpired` event: only a registered listener sees
        it, and it sets the flag and nothing else. (The signal carries no data.) */
    method Deliver(win: Window)
      modifies this
      ensures sessionExpired == (old(sessionExpired) || listener in win.listeners)
    {
      if listener in win.listeners {
        sessionExpired := true;
      }
    }

    /** `handleLogout`: removes exactly the two tokens (the user id and name
        stay), clears the flag and navigates to the login page. */
    method HandleLogout(store: Storage) returns (nav: string)
      modifies this, store
      ensures store.items == WithoutTokens(old(store.items))
      ensures !sessionExpired && nav == LoginRoute
    {
      store.RemoveItem(AccessToken);
      store.RemoveItem(RefreshToken);
      sessionExpired := false;
      nav := LoginRoute;
    }

    /** The modal's OK button: a full logout. */
    method OnModalOk(store: Storage) returns (nav: string)
      modifies this, store
      ensures store.items == WithoutTokens(old(store.items))
      ensures !sessionExpired && nav == LoginRoute
    {
      nav := HandleLogout(store);
    }

    /** Dismissing the modal only clears the flag; the store is not touched. */
    method OnModalHide()
      modifies this
      ensures !sessionExpired
    {
      sessionExpired := false;
    }
  }

  /** After logout no guarded page renders and `/` leads to the login page,
      while the user's id and name are still stored. */
  lemma LoggedOutSeesLogin(items: map<string, string>, path: string, decode: string -> Decoded, now: real)
    requires PrivatePage(path).Some?
    ensures var after := WithoutTokens(items);
      && !IsAuthenticated(after)
      && Route(path, after, false, decode, now) == Navigate(LoginRoute)
      && Route(HomeRoute, after, false, decode, now) == Navigate(LoginRoute)
      && Lookup(after, UserId) == Lookup(items, UserId) && Lookup(after, Username) == Lookup(items, Username)
  {
    var after := WithoutTokens(items);
    assert path != "/login" && path != "/register" by {
      assert PrivatePage("/login").None? && PrivatePage("/register").None?;
    }
    PublicRoutes(after, false, decode, now);
  }
}
